/**
  The form-row resolver of the adaptive form: from the rendering context of an
  object field and the name of one of its properties, build the rendering
  context of that property's editor (`getRowProps`), and map a row of one or
  two property names to one child context per name (`FormRow`).
 */
module FormRow {

  import opened Wrappers
  import opened Js

  /** A JSON Schema fragment: `required` is the only keyword read here; the rest are kept as they are. */
  datatype Schema = Schema(required: Option<seq<string>>, keywords: map<string, Value>)

  /** The schema literal `{}`. */
  const EmptySchema := Schema(None, map[])

  /** Per-field display hints; `properties` holds the hints of the sub-fields of an object field. */
  datatype UIOptions = UIOptions(properties: Option<map<string, UIOptions>>, hints: map<string, Value>)

  /** The UI-options literal `{}`. */
  const EmptyUIOptions := UIOptions(None, map[])

  /** A field's `label` prop (`fieldLabel` below, `label` being a Dafny keyword): `undefined` (Unset), `false` (Hidden) or a text. */
  datatype Label = Unset | Hidden | Text(text: string)

  /** A callback owned by the form engine; it is only handed on here, never called. */
  datatype Callback = Callback(handle: nat)

  /** A row: one property name, or an array of names laid out side by side. */
  datatype RowSpec = Single(field: string) | Group(fields: seq<string>)

  /** `resolvePropSchema(schema, field, definitions)`, which is not part of this model. */
  type PropSchemaResolver = (Schema, string, map<string, Schema>) -> Option<Schema>

  /** The props of a form row: the parent field's rendering context and the row. */
  datatype FormRowProps = FormRowProps(
    id: string,
    depth: int,
    schema: Schema,
    definitions: map<string, Schema>,
    value: Value,
    uiOptions: UIOptions,
    transparentBorder: Option<bool>,
    className: Option<string>,
    fieldLabel: Label,
    rawErrors: Value,
    onBlur: Option<Callback>,
    onFocus: Option<Callback>,
    onChange: string -> Callback,
    row: RowSpec)

  /** The rendering context handed to the editor of one property. */
  datatype ChildProps = ChildProps(
    id: string,
    schema: Schema,
    fieldLabel: Label,
    name: string,
    rawErrors: Value,
    required: bool,
    uiOptions: UIOptions,
    value: Value,
    onChange: Callback,
    depth: int,
    definitions: map<string, Schema>,
    transparentBorder: Option<bool>,
    className: Option<string>,
    onBlur: Option<Callback>,
    onFocus: Option<Callback>)

  /** One rendered child of a row: its React key and its props. */
  datatype RowChild = RowChild(key: string, props: ChildProps)

  /** The hierarchical id of property `field` under the field with id `parentId`. */
  function ChildId(parentId: string, field: string): (r: string)
    ensures |r| == |parentId| + 1 + |field|
    ensures r[..|parentId|] == parentId
    ensures r[|parentId|] == '.'
    ensures r[|parentId| + 1..] == field
  {
    parentId + "." + field
  }

  /** Two properties of the same parent get the same id only if they are the same property. */
  lemma ChildIdInjective(parentId: string, a: string, b: string)
    requires ChildId(parentId, a) == ChildId(parentId, b)
    ensures a == b
  {
  }

  /** `required.includes(field)` with `required` defaulting to `[]` when the schema has none. */
  function IsRequired(schema: Schema, field: string): (r: bool)
    ensures r <==> schema.required.Some? && exists i :: 0 <= i < |schema.required.value| && schema.required.value[i] == field
    ensures schema.required.None? ==> !r
  {
    var required := if schema.required.Some? then schema.required.value else [];
    field in required
  }

  /** The child's label: `false` is inherited, any other label is dropped. */
  function ChildLabel(parent: Label): (r: Label)
    ensures r == Hidden <==> parent == Hidden
    ensures r != Hidden ==> r == Unset
  {
    if parent == Hidden then Hidden else Unset
  }

  /** `fieldSchema ?? {}`: the resolved property schema, or the empty schema. */
  function SchemaOrEmpty(resolved: Option<Schema>): (r: Schema)
    ensures resolved.Some? ==> r == resolved.value
    ensures resolved.None? ==> r == EmptySchema
  {
    if resolved.Some? then resolved.value else EmptySchema
  }

  /** `value && value[field]`: a falsy parent value is passed on as it is; an object gives its own entry, or undefined. */
  function ValueSlice(value: Value, field: string): (r: Value)
    ensures !Truthy(value) ==> r == value
    ensures Nullish(value) ==> Nullish(r)
    ensures value.Obj? && field in value.fields ==> r == value.fields[field]
    ensures value.Obj? && field !in value.fields ==> r == Undefined
  {
    if Truthy(value) then Get(value, field) else value
  }

  /** `uiOptions.properties?.[field] ?? {}`: the property's own UI options, or the empty options. */
  function UIOptionsSlice(uiOptions: UIOptions, field: string): (r: UIOptions)
    ensures uiOptions.properties.Some? && field in uiOptions.properties.value ==>
              r == uiOptions.properties.value[field]
    ensures !(uiOptions.properties.Some? && field in uiOptions.properties.value) ==> r == EmptyUIOptions
  {
    match uiOptions.properties
    case Some(properties) => if field in properties then properties[field] else EmptyUIOptions
    case None => EmptyUIOptions
  }

  /** `rawErrors?.[field]`: the property's own errors; undefined unless the parent's errors hold an entry for it. */
  function ErrorsSlice(rawErrors: Value, field: string): (r: Value)
    ensures Nullish(rawErrors) ==> r == Undefined
    ensures rawErrors.Obj? && field in rawErrors.fields ==> r == rawErrors.fields[field]
    ensures r != Undefined ==> rawErrors.Obj? && field in rawErrors.fields
  {
    OptionalGet(rawErrors, field)
  }

  /** `getRowProps`: the context of the editor for property `field` of the field described by `p`. */
  function GetRowProps(p: FormRowProps, field: string, resolve: PropSchemaResolver): (r: ChildProps)
    // the id extends the parent's id by one path segment, and the name is the property
    ensures r.id == ChildId(p.id, field) && r.name == field
    // each slice is taken for this property alone
    ensures r.required == IsRequired(p.schema, field)
    ensures r.fieldLabel == ChildLabel(p.fieldLabel)
    ensures r.schema == SchemaOrEmpty(resolve(p.schema, field, p.definitions))
    ensures r.value == ValueSlice(p.value, field)
    ensures r.uiOptions == UIOptionsSlice(p.uiOptions, field)
    ensures r.rawErrors == ErrorsSlice(p.rawErrors, field)
    // the change handler is the parent's, bound to this property
    ensures r.onChange == p.onChange(field)
    // everything else is handed on unchanged
    ensures r.depth == p.depth && r.definitions == p.definitions
    ensures r.transparentBorder == p.transparentBorder && r.className == p.className
    ensures r.onBlur == p.onBlur && r.onFocus == p.onFocus
  {
    ChildProps(
      id := ChildId(p.id, field),
      schema := SchemaOrEmpty(resolve(p.schema, field, p.definitions)),
      fieldLabel := ChildLabel(p.fieldLabel),
      name := field,
      rawErrors := ErrorsSlice(p.rawErrors, field),
      required := IsRequired(p.schema, field),
      uiOptions := UIOptionsSlice(p.uiOptions, field),
      value := ValueSlice(p.value, field),
      onChange := p.onChange(field),
      depth := p.depth,
      definitions := p.definitions,
      transparentBorder := p.transparentBorder,
      className := p.className,
      onBlur := p.onBlur,
      onFocus := p.onFocus)
  }

  /** The child a row renders for one property: keyed by the property's id. */
  function RowChildFor(p: FormRowProps, field: string, resolve: PropSchemaResolver): (r: RowChild)
    ensures r.props == GetRowProps(p, field, resolve)
    ensures r.key == r.props.id && r.key == ChildId(p.id, field)
  {
    RowChild(ChildId(p.id, field), GetRowProps(p, field, resolve))
  }

  /** `row.map(...)`: one child per name, in the row's order. */
  function MapRow(p: FormRowProps, fields: seq<string>, resolve: PropSchemaResolver): (r: seq<RowChild>)
    ensures |r| == |fields|
    ensures forall i :: 0 <= i < |fields| ==> r[i] == RowChildFor(p, fields[i], resolve)
  {
    if fields == [] then []
    else [RowChildFor(p, fields[0], resolve)] + MapRow(p, fields[1..], resolve)
  }

  /** `FormRow`: the children a row renders, each keyed by its own id. */
  function RenderRow(p: FormRowProps, resolve: PropSchemaResolver): (r: seq<RowChild>)
    ensures p.row.Single? ==> r == [RowChildFor(p, p.row.field, resolve)]
    ensures p.row.Group? ==> |r| == |p.row.fields|
    ensures p.row.Group? ==> forall i :: 0 <= i < |r| ==> r[i] == RowChildFor(p, p.row.fields[i], resolve)
    ensures forall i :: 0 <= i < |r| ==> r[i].key == r[i].props.id
  {
    match p.row
    case Single(field) => [RowChildFor(p, field, resolve)]
    case Group(fields) => MapRow(p, fields, resolve)
  }

  /** A pair row renders exactly two children, the first property's before the second's. */
  lemma PairRow(p: FormRowProps, resolve: PropSchemaResolver, a: string, b: string)
    requires p.row == Group([a, b])
    ensures RenderRow(p, resolve) == [RowChildFor(p, a, resolve), RowChildFor(p, b, resolve)]
  {
  }

  /** The names of a row are distinct when no name occurs twice. */
  predicate DistinctNames(row: RowSpec) {
    match row
    case Single(_) => true
    case Group(fields) => forall i, j :: 0 <= i < j < |fields| ==> fields[i] != fields[j]
  }

  /** Distinct names in a row give children with distinct keys and distinct ids. */
  lemma RowKeysDistinct(p: FormRowProps, resolve: PropSchemaResolver)
    requires DistinctNames(p.row)
    ensures var r := RenderRow(p, resolve);
      forall i, j :: 0 <= i < j < |r| ==> r[i].key != r[j].key && r[i].props.id != r[j].props.id
  {
  }
}
