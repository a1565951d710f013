/** What the code generated by `expand_attr_to_item` does at run time: for
    every named field of an entity, resolve its attribute key, look it up in
    the returned item and convert it, returning early on the first failure. */
module Shared {
  import opened Attribute

  /** The entity-wide case-conversion policy (`RenameAllType`). */
  datatype RenameAllType = CamelCase | PascalCase | NoRename

  /** One named field as the macro sees it: its Rust identifier, its explicit
      `rename` attribute if any, and whether its type is an `Option`. */
  datatype FieldDef = FieldDef(ident: string, renamed: Option<string>, optional: bool)

  /** A decoded field: `Absent` is the `None` of an optional field. */
  datatype FieldValue<V> = Absent | Present(value: V)

  /** A decoded entity: one value per named field, in declaration order. */
  datatype Record<V> = Record(values: seq<FieldValue<V>>)

  /** The entity's compile-time configuration. `rename` is the external case
      conversion and `fromAttr` the external `FromAttribute` conversion of a
      field (None when the value does not convert). */
  datatype Schema<V> = Schema(
    fields: seq<FieldDef>,
    renameAll: RenameAllType,
    rename: (RenameAllType, string) -> string,
    fromAttr: (FieldDef, AttributeValue) -> Option<V>)

  /** The attribute key a field is stored under. */
  function AttrKey<V>(schema: Schema<V>, f: FieldDef): string
  {
    if f.renamed.Some? then f.renamed.value
    else if schema.renameAll != NoRename then schema.rename(schema.renameAll, f.ident)
    else f.ident
  }

  /** An explicit rename decides the key whatever the entity-wide policy. */
  lemma ExplicitRenameWins<V>(schema: Schema<V>, policy: RenameAllType, f: FieldDef)
    requires f.renamed.Some?
    ensures AttrKey(schema, f) == f.renamed.value
    ensures AttrKey(schema.(renameAll := policy), f) == AttrKey(schema, f)
  {
  }

  /** Without an explicit rename, the policy converts the identifier, and with
      no policy the identifier itself is the key. */
  lemma PolicyThenIdentifier<V>(schema: Schema<V>, f: FieldDef)
    requires f.renamed.None?
    ensures schema.renameAll == NoRename ==> AttrKey(schema, f) == f.ident
    ensures schema.renameAll != NoRename ==> AttrKey(schema, f) == schema.rename(schema.renameAll, f.ident)
  {
  }

  /** The generated block for one field. */
  function DecodeField<V>(schema: Schema<V>, f: FieldDef, item: Item): (r: Result<FieldValue<V>>)
    ensures r == Ok(Absent) <==> f.optional && AttrKey(schema, f) !in item
    ensures r == Err(AttributeValueNotFoundError(AttrKey(schema, f))) <==> !f.optional && AttrKey(schema, f) !in item
    ensures r == Err(AttributeConvertError(AttrKey(schema, f)))
            <==> AttrKey(schema, f) in item && schema.fromAttr(f, item[AttrKey(schema, f)]).None?
    ensures AttrKey(schema, f) in item && schema.fromAttr(f, item[AttrKey(schema, f)]).Some?
            ==> r == Ok(Present(schema.fromAttr(f, item[AttrKey(schema, f)]).value))
    ensures r.Ok? && r.value.Present? ==> AttrKey(schema, f) in item
    ensures r.Err? ==> r.error.attrName == AttrKey(schema, f)
  {
    var key := AttrKey(schema, f);
    if key !in item then
      if f.optional then Ok(Absent) else Err(AttributeValueNotFoundError(key))
    else
      match schema.fromAttr(f, item[key])
      case None => Err(AttributeConvertError(key))
      case Some(v) => Ok(Present(v))
  }

  /** Only the entry under the resolved key matters, never the identifier. */
  lemma DecodeReadsOnlyResolvedKey<V>(schema: Schema<V>, f: FieldDef, item1: Item, item2: Item)
    requires AttrKey(schema, f) in item1 <==> AttrKey(schema, f) in item2
    requires AttrKey(schema, f) in item1 ==> item1[AttrKey(schema, f)] == item2[AttrKey(schema, f)]
    ensures DecodeField(schema, f, item1) == DecodeField(schema, f, item2)
  {
  }

  /** The struct literal: the fields' blocks in declaration order, the first
      failing block returning its error. */
  function DecodeFields<V>(schema: Schema<V>, fields: seq<FieldDef>, item: Item): (r: Result<seq<FieldValue<V>>>)
    ensures r.Ok? <==> forall i :: 0 <= i < |fields| ==> DecodeField(schema, fields[i], item).Ok?
    ensures r.Ok? ==> |r.value| == |fields|
    ensures r.Ok? ==> forall i :: 0 <= i < |fields| ==> DecodeField(schema, fields[i], item) == Ok(r.value[i])
    ensures r.Err? ==> exists i :: 0 <= i < |fields| && DecodeField(schema, fields[i], item) == Err(r.error)
                                  && forall j :: 0 <= j < i ==> DecodeField(schema, fields[j], item).Ok?
  {
    if fields == [] then Ok([])
    else
      match DecodeField(schema, fields[0], item)
      case Err(e) => Err(e)
      case Ok(v) =>
        match DecodeFields(schema, fields[1..], item)
        case Err(e) =>
          assert forall j :: 1 <= j <= |fields[1..]| ==> fields[1..][j - 1] == fields[j];
          Err(e)
        case Ok(vs) => Ok([v] + vs)
  }

  /** One returned item decoded into the entity: a record exactly when every
      field decodes, holding the fields' values in declaration order, and
      otherwise the first failing field's error. */
  function DecodeItem<V>(schema: Schema<V>, item: Item): (r: Result<Record<V>>)
    ensures r.Ok? <==> forall i :: 0 <= i < |schema.fields| ==> DecodeField(schema, schema.fields[i], item).Ok?
    ensures r.Ok? ==> |r.value.values| == |schema.fields|
    ensures r.Ok? ==> forall i :: 0 <= i < |schema.fields| ==> DecodeField(schema, schema.fields[i], item) == Ok(r.value.values[i])
    ensures r.Err? ==> exists i :: 0 <= i < |schema.fields| && DecodeField(schema, schema.fields[i], item) == Err(r.error)
                                  && forall j :: 0 <= j < i ==> DecodeField(schema, schema.fields[j], item).Ok?
  {
    match DecodeFields(schema, schema.fields, item)
    case Err(e) => Err(e)
    case Ok(values) => Ok(Record(values))
  }
}
