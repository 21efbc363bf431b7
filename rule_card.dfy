/**
  The rule node of the visual dialog designer: how a click on the node's card
  resolves into exactly one semantic event for the diagram controller.
  The card holds no state; whether it is focused comes in as `focusedId`.
 */
module RuleCard {

  import opened Wrappers
  import opened Js

  /** `ObiTypes.BeginDialog`: the `$type` of a step that begins a child dialog. */
  const BeginDialogType: string := "Microsoft.BeginDialog"

  /** `normalizeObiStep`, which is not part of this model; it yields the canonical step object. */
  type StepNormalizer = Value -> map<string, Value>

  /** The events the card emits through `onEvent(kind, payload)`. */
  datatype NodeEvent =
    | Focus(nodeId: string)
    | Expand(nodeId: string)
    | OpenLink(dialog: Value)

  /** Where the card was clicked: its body, or the navigation icon in its corner. */
  datatype ClickSource = Body | NavIcon

  /** A normalized step begins a child dialog when its `$type` is BeginDialog. */
  predicate IsBeginDialog(step: map<string, Value>) {
    "$type" in step && step["$type"] == Str(BeginDialogType)
  }

  /** `getDirectJumpDialog`: the `dialog` of the rule's only step when that step begins a dialog, otherwise `null`. */
  function DirectJumpDialog(data: Value, normalize: StepNormalizer): (r: Value)
    requires !Nullish(data)
    // no array of exactly one step: no direct jump
    ensures !(Get(data, "steps").Arr? && |Get(data, "steps").elems| == 1) ==> r == Null
    // exactly one step: its dialog if it begins one, otherwise no direct jump
    ensures Get(data, "steps").Arr? && |Get(data, "steps").elems| == 1 ==>
              var step := normalize(Get(data, "steps").elems[0]);
              r == if IsBeginDialog(step) then Get(Obj(step), "dialog") else Null
  {
    var steps := Get(data, "steps");
    if !steps.Arr? || |steps.elems| != 1 then Null
    else
      var step := normalize(steps.elems[0]);
      if IsBeginDialog(step) then Get(Obj(step), "dialog") else Null
  }

  /** The rule has a direct jump to `dialog`: its steps are one step that begins `dialog`, a truthy dialog reference. */
  ghost predicate JumpsTo(data: Value, normalize: StepNormalizer, dialog: Value)
    requires !Nullish(data)
  {
    exists step :: Get(data, "steps") == Arr([step])
      && IsBeginDialog(normalize(step))
      && "dialog" in normalize(step) && normalize(step)["dialog"] == dialog
      && Truthy(dialog)
  }

  /** `focusNode`: emit Focus for this node. */
  function FocusNode(id: string): (e: NodeEvent)
    ensures e.Focus? && e.nodeId == id
  {
    Focus(id)
  }

  /** `openNode`: navigate into the direct-jump dialog when there is one, otherwise expand the rule in place. */
  function OpenNode(id: string, data: Value, normalize: StepNormalizer): (e: NodeEvent)
    requires !Nullish(data)
    ensures !e.Focus?
    ensures e.OpenLink? <==> Truthy(DirectJumpDialog(data, normalize))
    ensures e.OpenLink? ==> e.dialog == DirectJumpDialog(data, normalize)
    ensures e.Expand? ==> e.nodeId == id
  {
    var directJumpDialog := DirectJumpDialog(data, normalize);
    if Truthy(directJumpDialog) then OpenLink(directJumpDialog) else Expand(id)
  }

  /** `onCardBodyClick`: the first click focuses the node, a click on the focused node opens it. */
  function OnCardBodyClick(id: string, focusedId: Option<string>, data: Value, normalize: StepNormalizer): (e: NodeEvent)
    // focusing does not read `data`; only opening does
    requires focusedId == Some(id) ==> !Nullish(data)
    ensures focusedId != Some(id) ==> e == Focus(id)
    ensures focusedId == Some(id) ==> e == OpenNode(id, data, normalize)
  {
    if focusedId == Some(id) then OpenNode(id, data, normalize) else FocusNode(id)
  }

  /** `onCardNavClick`: the navigation icon opens the node whatever the focus. */
  function OnCardNavClick(id: string, data: Value, normalize: StepNormalizer): (e: NodeEvent)
    requires !Nullish(data)
    ensures !e.Focus?
    ensures e == OpenNode(id, data, normalize)
  {
    OpenNode(id, data, normalize)
  }

  /**
    The one event a click emits. The icon's handler stops propagation, so an icon
    click reaches only `onCardNavClick` and never the body's handler.
   */
  function Click(id: string, focusedId: Option<string>, data: Value, normalize: StepNormalizer, source: ClickSource): (e: NodeEvent)
    requires source == NavIcon || focusedId == Some(id) ==> !Nullish(data)
    ensures e.Focus? <==> source == Body && focusedId != Some(id)
    ensures e.Focus? ==> e.nodeId == id
    ensures e.Expand? ==> e.nodeId == id && !Truthy(DirectJumpDialog(data, normalize))
    ensures e.OpenLink? ==> e.dialog == DirectJumpDialog(data, normalize) && Truthy(e.dialog)
  {
    match source
    case Body => OnCardBodyClick(id, focusedId, data, normalize)
    case NavIcon => OnCardNavClick(id, data, normalize)
  }

  /** A truthy direct-jump result is exactly a one-step rule that begins that dialog. */
  lemma DirectJumpIff(data: Value, normalize: StepNormalizer, dialog: Value)
    requires !Nullish(data)
    ensures DirectJumpDialog(data, normalize) == dialog && Truthy(dialog) <==> JumpsTo(data, normalize, dialog)
  {
  }

  /** Opening emits OpenLink(d) exactly for a one-step rule that begins the truthy dialog d, and Expand otherwise. */
  lemma OpenNodeResolution(id: string, data: Value, normalize: StepNormalizer)
    requires !Nullish(data)
    ensures forall d :: OpenNode(id, data, normalize) == OpenLink(d) <==> JumpsTo(data, normalize, d)
    ensures OpenNode(id, data, normalize) == Expand(id) <==> forall d :: !JumpsTo(data, normalize, d)
  {
  }

  /** The navigation icon gives the same event whatever the focus, and the same as a body click on the focused node. */
  lemma NavClickIgnoresFocus(id: string, f1: Option<string>, f2: Option<string>, data: Value, normalize: StepNormalizer)
    requires !Nullish(data)
    ensures Click(id, f1, data, normalize, NavIcon) == Click(id, f2, data, normalize, NavIcon)
    ensures Click(id, f1, data, normalize, NavIcon) == Click(id, Some(id), data, normalize, Body)
  {
  }

  /**
    Two body clicks on an unfocused node: the first emits Focus(id); once the
    controller has focused the node, the second opens it.
   */
  lemma FocusThenOpen(id: string, focusedId: Option<string>, data: Value, normalize: StepNormalizer)
    requires !Nullish(data) && focusedId != Some(id)
    ensures Click(id, focusedId, data, normalize, Body) == Focus(id)
    ensures Click(id, Some(Click(id, focusedId, data, normalize, Body).nodeId), data, normalize, Body)
              == OpenNode(id, data, normalize)
  {
  }

  /** Of the rule's data, only `steps` decides the event. */
  lemma OnlyStepsMatter(id: string, focusedId: Option<string>, d1: Value, d2: Value, normalize: StepNormalizer, source: ClickSource)
    requires !Nullish(d1) && !Nullish(d2) && Get(d1, "steps") == Get(d2, "steps")
    ensures Click(id, focusedId, d1, normalize, source) == Click(id, focusedId, d2, normalize, source)
  {
  }

  /** A one-step BeginDialog rule whose dialog reference is empty or missing falls back to Expand. */
  lemma FalsyDialogExpands(id: string, data: Value, normalize: StepNormalizer, step: Value)
    requires !Nullish(data) && Get(data, "steps") == Arr([step]) && IsBeginDialog(normalize(step))
    requires "dialog" !in normalize(step) || normalize(step)["dialog"] == Str("")
    ensures OpenNode(id, data, normalize) == Expand(id)
  {
  }

  /** No steps, or two steps of any kind: no direct jump; one BeginDialog step: its dialog. */
  lemma DirectJumpExamples(normalize: StepNormalizer, a: Value, b: Value)
    requires normalize(a) == map["$type" := Str(BeginDialogType), "dialog" := Str("X")]
    ensures DirectJumpDialog(Obj(map["steps" := Arr([])]), normalize) == Null
    ensures DirectJumpDialog(Obj(map["steps" := Arr([a, b])]), normalize) == Null
    ensures DirectJumpDialog(Obj(map["steps" := Arr([a])]), normalize) == Str("X")
    ensures OpenNode("N", Obj(map["steps" := Arr([a])]), normalize) == OpenLink(Str("X"))
  {
  }
}
