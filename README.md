# Form rows and rule-node clicks of BotFramework Composer, modelled in Dafny

Two small pieces of decision logic from the Composer authoring tool:

- **Form row resolver** (`adaptive-form`, `FormRow.tsx`). `getRowProps` builds the
  rendering context of one property's editor from its parent field's context: a
  hierarchical id `parent.id + "." + field`, the `required` flag from the parent
  schema's `required` list, a one-way label-suppression flag, null-safe slices of
  the value, the UI options and the validation errors, the resolved property
  schema (or `{}`), the parent's `onChange` bound to the property, and a fixed set
  of props handed on unchanged. `FormRow` maps a row (one name, or an array of
  names laid out side by side) to one child per name, in order, keyed by the
  child's id. Modelled in `form_row.dfy`, module `FormRow`.
- **Rule node** (`visual-designer`, `RuleCard.js`). `getDirectJumpDialog`
  finds the child dialog a rule can jump straight into (its only step begins a
  dialog). A click on the card's body focuses an unfocused node and opens a
  focused one; a click on the navigation icon always opens it and never reaches
  the body's handler. Opening emits `OpenLink(dialog)` when there is a truthy
  direct-jump dialog and `Expand(id)` otherwise. The `onEvent(kind, payload)`
  callback becomes a returned `NodeEvent` value. Modelled in `rule_card.dfy`,
  module `RuleCard`.

`js.dfy` (module `Js`) holds the JavaScript value semantics the code relies on:
truthiness for `&&` and `if`, nullishness for `?.` and `??`, and reading a
property by key. `wrappers.dfy` holds `Option`, used for TypeScript fields that
may be `undefined`.

The two collaborators that are imported but not part of this model,
`resolvePropSchema` (`utils`) and `normalizeObiStep` (`elementBuilder`), are
function-valued parameters (`PropSchemaResolver`, `StepNormalizer`). Every
property is proved for all of their possible behaviours. `ObiTypes.BeginDialog`
is the constant `BeginDialogType` (`"Microsoft.BeginDialog"`); no proof depends
on its text. Callbacks that are only handed on (`onBlur`, `onFocus`, the bound
`onChange`) are opaque `Callback` handles. `label` is a Dafny keyword, so the
label prop is the field `fieldLabel`.

Three behaviours of the code are worth stating plainly:

- `value && value[field]` passes any falsy parent value on unchanged, so
  `null` stays `null`, `0` stays `0` and `""` stays `""`; only a truthy parent is
  read from (`ValueSlice`).
- `getDirectJumpDialog` returns the normalized step's `dialog` whatever it
  holds, including `undefined`; `openNode` then tests truthiness, so an empty
  or missing dialog reference falls back to `Expand` (`FalsyDialogExpands`).
- A body click on an unfocused node emits `Focus(id)` without reading the
  rule's data at all, so it does so even when `data` is `undefined` or `null`
  (`OnCardBodyClick`, `Click`).

## Model

| member | source | states |
|---|---|---|
| `FormRow.ChildId` | Composer/packages/extensions/adaptive-form/src/components/FormRow.tsx:39 | the child id is the parent id, then `.`, then the field name, with matching length |
| `FormRow.ChildIdInjective` | Composer/packages/extensions/adaptive-form/src/components/FormRow.tsx:39 | two properties of one parent share an id only if they are the same property |
| `FormRow.IsRequired` | Composer/packages/extensions/adaptive-form/src/components/FormRow.tsx:35-44 | required exactly when the field occurs in the schema's `required` list; never required when the list is absent |
| `FormRow.ChildLabel` | Composer/packages/extensions/adaptive-form/src/components/FormRow.tsx:41 | the child label is `false` iff the parent label is `false`, and otherwise `undefined`, never a text |
| `FormRow.SchemaOrEmpty` | Composer/packages/extensions/adaptive-form/src/components/FormRow.tsx:36-40 | the child schema is the resolved property schema when there is one, else the empty schema `{}` |
| `FormRow.ValueSlice` | Composer/packages/extensions/adaptive-form/src/components/FormRow.tsx:46 | a falsy parent value is passed on unchanged, so an absent one stays absent; an object parent gives its own entry for the field, or `undefined` |
| `FormRow.UIOptionsSlice` | Composer/packages/extensions/adaptive-form/src/components/FormRow.tsx:45 | the child UI options are `uiOptions.properties[field]` when present, else `{}` |
| `FormRow.ErrorsSlice` | Composer/packages/extensions/adaptive-form/src/components/FormRow.tsx:43 | the child errors are the parent's entry for the field; `undefined` when the parent has none or no entry for it |
| `FormRow.GetRowProps` | Composer/packages/extensions/adaptive-form/src/components/FormRow.tsx:18-55 | the child context: the id and name, each slice taken for this field alone, `onChange` equal to `parent.onChange(field)`, and depth, definitions, transparentBorder, className, onBlur and onFocus copied unchanged |
| `FormRow.RowChildFor` | Composer/packages/extensions/adaptive-form/src/components/FormRow.tsx:87-93 | the child element rendered for one name carries `getRowProps(props, name)` as its props and the child's id `${id}.${name}` as its key |
| `FormRow.MapRow` | Composer/packages/extensions/adaptive-form/src/components/FormRow.tsx:87-89 | `row.map` yields one child per name, as many as there are names, element i being the child for name i |
| `FormRow.RenderRow` | Composer/packages/extensions/adaptive-form/src/components/FormRow.tsx:81-94 | a single-name row gives exactly one child and an array row one child per name in row order; every child's key equals its id |
| `FormRow.PairRow` | Composer/packages/extensions/adaptive-form/src/components/FormRow.tsx:84-90 | a pair row gives exactly two children, the first name's before the second's |
| `FormRow.RowKeysDistinct` | Composer/packages/extensions/adaptive-form/src/components/FormRow.tsx:84-93 | when a row's names are distinct, its children's keys and ids are pairwise distinct |
| `RuleCard.DirectJumpDialog` | Composer/packages/extensions/visual-designer/src/components/nodes/templates/RuleCard.js:11-18 | `null` unless `steps` is an array of exactly one step; with one step, that step's `dialog` iff its normalized `$type` is BeginDialog, else `null` |
| `RuleCard.DirectJumpIff` | Composer/packages/extensions/visual-designer/src/components/nodes/templates/RuleCard.js:11-18 | the direct-jump result is a truthy `d` exactly when the steps are one step that begins the dialog `d` |
| `RuleCard.FocusNode` | Composer/packages/extensions/visual-designer/src/components/nodes/templates/RuleCard.js:21-23 | focusing emits `Focus` for this node's id |
| `RuleCard.OpenNode` | Composer/packages/extensions/visual-designer/src/components/nodes/templates/RuleCard.js:25-38 | opening emits `OpenLink(d)` exactly when the direct-jump result `d` is truthy, otherwise `Expand(id)`; never `Focus` |
| `RuleCard.OpenNodeResolution` | Composer/packages/extensions/visual-designer/src/components/nodes/templates/RuleCard.js:25-38 | opening emits `OpenLink(d)` iff the rule is one step beginning the truthy dialog `d`, and `Expand(id)` iff there is no such dialog |
| `RuleCard.OnCardBodyClick` | Composer/packages/extensions/visual-designer/src/components/nodes/templates/RuleCard.js:40-46 | a body click on an unfocused node emits exactly `Focus(id)`, whatever `data` is (even nullish); on the focused node, exactly the open result |
| `RuleCard.OnCardNavClick` | Composer/packages/extensions/visual-designer/src/components/nodes/templates/RuleCard.js:48-50 | a navigation click emits the open result and never `Focus` |
| `RuleCard.Click` | Composer/packages/extensions/visual-designer/src/components/nodes/templates/RuleCard.js:52-73 | every click emits one event; it is `Focus(id)` exactly for a body click on an unfocused node, `Expand` carries this node's id and comes only without a truthy direct jump, `OpenLink` carries that truthy direct-jump dialog |
| `RuleCard.NavClickIgnoresFocus` | Composer/packages/extensions/visual-designer/src/components/nodes/templates/RuleCard.js:48-62 | the navigation icon emits the same event for any focus state, the same as a body click on the focused node |
| `RuleCard.FocusThenOpen` | Composer/packages/extensions/visual-designer/src/components/nodes/templates/RuleCard.js:40-46 | a first body click on an unfocused node emits `Focus(id)`; with that id focused, a second body click opens the node |
| `RuleCard.OnlyStepsMatter` | Composer/packages/extensions/visual-designer/src/components/nodes/templates/RuleCard.js:11-13 | of the rule's data only `steps` decides the event |
| `RuleCard.FalsyDialogExpands` | Composer/packages/extensions/visual-designer/src/components/nodes/templates/RuleCard.js:32-37 | a one-step BeginDialog rule whose dialog is empty or missing emits `Expand(id)` |
| `RuleCard.DirectJumpExamples` | Composer/packages/extensions/visual-designer/src/components/nodes/templates/RuleCard.js:11-18 | no steps and two steps give `null`; one BeginDialog step with dialog `X` gives `X` and opening emits `OpenLink(X)` |

## Left out

- `resolvePropSchema` and `normalizeObiStep` are not part of this model; they are parameters, and nothing is assumed about what they return beyond its type (`normalizeObiStep` is taken to return an object).
- Property reads follow own properties of objects only. Reading a field of an array, a string, a number or a boolean gives `undefined` in the model. Inherited prototype properties (`constructor`, `toString`, `length`) are not modelled either.
- Numbers are integers; `NaN` and fractions are not modelled (only truthiness of a number is used).
- Schemas, UI options and `required` follow their TypeScript types: `schema` and `uiOptions` are always objects and `required`, when present, is a list of strings. The `TypeError`s the code would raise for a `null` schema, `null` UI options or a non-array `required` are therefore not modelled.
- RuleCard.DirectJumpDialog, RuleCard.OpenNode, RuleCard.OnCardNavClick: require `data` to be neither `undefined` nor `null`. On such `data` the destructuring `const { steps } = data` in `getDirectJumpDialog` throws a `TypeError`, so opening the node (a navigation click, or a body click on the focused node) throws; that exception is not modelled. `Click` and `OnCardBodyClick` demand non-nullish `data` only on these opening paths.
- Props of the parent field that `getRowProps` does not read are not in `FormRowProps`; the function drops them.
- All rendering: JSX, the emotion CSS of the rows (full width versus side-by-side with a gap), `SchemaField`, `IconCard` and its `themeColor` and `label`, and `NodeMenu` with the events it emits itself.
- The return value of `onEvent` and what the diagram controller does with an event (for example focusing the node) are outside the card; `FocusThenOpen` takes the controller's focusing as given.
- The home page, the publishing actions and the router (`Home.tsx`, `publisher.ts`, `router.tsx`) are not part of this model: they are page composition, HTTP and OAuth glue, and a route table.
