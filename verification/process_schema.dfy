/** Translation of a stream's JSON Schema into a table model
    (target_cassandra/__init__.py, `process_schema`). */
module SchemaTranslation {
  import opened Outcomes
  import opened JsonValues
  import opened TypeTable

  const NullType := "null"

  /** The value of a property definition's `type` keyword, by the branch of
      `process_schema` it selects. An absent `type` (`NoType`) and an
      explicit JSON `null` (`NullTyped`) both read as None there, but are
      kept apart because the validator tells them apart; any other
      non-string, non-list value selects no branch. */
  datatype TypeField =
    | NoType
    | NullTyped
    | Single(name: string)
    | Union(names: seq<string>)
    | OtherType(value: OtherTypeValue)

  /** A `type` value that is neither a string, a list nor null: a number,
      a boolean or an object. */
  type OtherTypeValue = j: Json | !j.Null? && !j.Str? && !j.Array? witness Bool(false)

  /** The keywords of a property definition other than `type` and `anyOf`. */
  type PropertyKeywords = j: Json | j.Object? && forall e | e in j.fields :: e.0 != "type" && e.0 != "anyOf"
    witness Object([])

  /** The keywords of a schema other than `properties`. */
  type SchemaKeywords = j: Json | j.Object? && forall e | e in j.fields :: e.0 != "properties"
    witness Object([])

  /** A property definition: its `type`, its `anyOf` value if present (of
      any JSON kind), and every other keyword (read only by the validator). */
  datatype PropertyDef = PropertyDef(typ: TypeField, anyOf: Option<Json>, keywords: PropertyKeywords)

  /** A stream schema: its `properties` object, if present, and every other
      keyword (read only by the validator). */
  datatype Schema = Schema(properties: Option<map<string, PropertyDef>>, keywords: SchemaKeywords)

  /** A column attribute of the generated model class. */
  datatype Column = Column(kind: ColumnKind, primaryKey: bool)

  /** The generated model: its column attributes by name. */
  type Model = map<string, Column>

  /** `[pt for pt in property_type if pt != 'null']`, up to order: the same
      members with every `"null"` removed. */
  function WithoutNull(ns: seq<string>): (r: seq<string>)
    ensures multiset(r) == multiset(ns)[NullType := 0]
    ensures |r| == |ns| - multiset(ns)[NullType]
  {
    if ns == [] then []
    else
      assert ns == [ns[0]] + ns[1..];
      (if ns[0] == NullType then [] else [ns[0]]) + WithoutNull(ns[1..])
  }

  /** One iteration of the loop over `schema['properties']`: Ok(Some(c))
      adds column c, Ok(None) adds nothing, Error is a failed `assert`. */
  function TranslateProperty(name: string, def: PropertyDef, keys: seq<string>): (r: Result<Option<Column>>)
    ensures r.Ok? && r.value.Some? ==> r.value.value.primaryKey == (name in keys)
    ensures r.Ok? && r.value.Some? ==> def.typ.Single? || def.typ.Union?
    ensures def.typ.Single? ==> (r.Ok? <==> ColumnClass(def.typ.name).Some?)
    ensures def.typ.Single? && ColumnClass(def.typ.name).Some? ==>
              r == Ok(Some(Column(ColumnClass(def.typ.name).value, name in keys)))
    ensures def.typ.NoType? || def.typ.NullTyped? || def.typ.OtherType? ==> r == Ok(None)
  {
    match def.typ
    case Union(ns) =>
      var rest := WithoutNull(ns);
      if |rest| != 1 then Error
      else
        (match ColumnClass(rest[0])
         case None => Ok(None)
         case Some(kind) => Ok(Some(Column(kind, name in keys))))
    case Single(t) =>
      (match ColumnClass(t)
       case None => Error
       case Some(kind) => Ok(Some(Column(kind, name in keys))))
    case NoType =>
      // the `anyOf` branch reads the alternatives and then does nothing
      Ok(None)
    case NullTyped =>
      Ok(None)
    case OtherType(_) =>
      Ok(None)
  }

  /** `process_schema`: fails when `properties` is missing or any property
      fails; otherwise the model holds one column per property whose
      definition yields one. */
  function ProcessSchema(schema: Schema, keys: seq<string>): (r: Result<Model>)
    ensures r.Ok? <==>
              && schema.properties.Some?
              && forall k | k in schema.properties.value ::
                   TranslateProperty(k, schema.properties.value[k], keys).Ok?
    ensures r.Ok? ==> r.value.Keys <= schema.properties.value.Keys
    ensures r.Ok? ==> forall k | k in r.value :: r.value[k].primaryKey <==> k in keys
    ensures r.Ok? ==> forall k | k in schema.properties.value && schema.properties.value[k].typ in {NoType, NullTyped} ::
                        k !in r.value
    ensures r.Ok? ==> forall k | k in schema.properties.value && schema.properties.value[k].typ.Single? ::
                        && k in r.value
                        && r.value[k] == Column(ColumnClass(schema.properties.value[k].typ.name).value, k in keys)
  {
    match schema.properties
    case None => Error
    case Some(props) =>
      if exists k | k in props :: TranslateProperty(k, props[k], keys).Error? then Error
      else Ok(Columns(props, keys))
  }

  /** The columns of properties that all translate: `model_attrs`. */
  function Columns(props: map<string, PropertyDef>, keys: seq<string>): Model
    requires forall k | k in props :: TranslateProperty(k, props[k], keys).Ok?
  {
    map k | k in props && TranslateProperty(k, props[k], keys).value.Some? ::
      TranslateProperty(k, props[k], keys).value.value
  }

  /** A list-valued `type` holding one non-null member t (plus any number of
      `"null"`s) translates like the plain string t when t is mapped, and
      yields no column when t is unmapped. */
  lemma UnionWithOneSurvivor(name: string, ns: seq<string>, t: string, anyOf: Option<Json>, keywords: PropertyKeywords, keys: seq<string>)
    requires t != NullType
    requires multiset(ns)[t] == 1
    requires forall i | 0 <= i < |ns| :: ns[i] == t || ns[i] == NullType
    ensures ColumnClass(t).Some? ==>
              TranslateProperty(name, PropertyDef(Union(ns), anyOf, keywords), keys)
              == TranslateProperty(name, PropertyDef(Single(t), anyOf, keywords), keys)
    ensures ColumnClass(t).None? ==>
              TranslateProperty(name, PropertyDef(Union(ns), anyOf, keywords), keys) == Ok(None)
  {
    WithoutNullOfOneName(ns, t);
    assert WithoutNull(ns) == [t];
  }

  /** A list of t and `"null"`s only filters down to t, once per occurrence. */
  lemma {:induction false} WithoutNullOfOneName(ns: seq<string>, t: string)
    requires t != NullType
    requires forall i | 0 <= i < |ns| :: ns[i] == t || ns[i] == NullType
    ensures WithoutNull(ns) == seq(multiset(ns)[t], _ => t)
  {
    if ns != [] {
      assert ns == [ns[0]] + ns[1..];
      WithoutNullOfOneName(ns[1..], t);
      if ns[0] == t {
        assert seq(multiset(ns)[t], _ => t) == [t] + seq(multiset(ns[1..])[t], _ => t);
      }
    }
  }

  /** A list-valued `type` with zero or several non-null members fails,
      whatever the members are. */
  lemma UnionWithoutOneSurvivorFails(name: string, ns: seq<string>, anyOf: Option<Json>, keywords: PropertyKeywords, keys: seq<string>)
    requires |ns| - multiset(ns)[NullType] != 1
    ensures TranslateProperty(name, PropertyDef(Union(ns), anyOf, keywords), keys) == Error
  {
  }

  /** A type name outside the table's mapped entries, other than `"null"`,
      behaves by form: as the one non-null list member it silently yields
      no column, even for a key property; as a plain string it fails. */
  lemma UnmappedTypeDependsOnForm(name: string, ns: seq<string>, t: string, anyOf: Option<Json>, keywords: PropertyKeywords, keys: seq<string>)
    requires ColumnClass(t).None? && t != NullType
    requires multiset(ns)[t] == 1
    requires forall i | 0 <= i < |ns| :: ns[i] == t || ns[i] == NullType
    ensures TranslateProperty(name, PropertyDef(Union(ns), anyOf, keywords), keys) == Ok(None)
    ensures TranslateProperty(name, PropertyDef(Single(t), anyOf, keywords), keys) == Error
  {
    UnionWithOneSurvivor(name, ns, t, anyOf, keywords, keys);
  }

  /** The column a successful translation gives a property whose `type` is
      a list of one non-null name t plus any `"null"`s: a column of t's
      class, keyed iff the property is a key property, when t is mapped, and
      no column when it is not. (A plain string `type` is covered by the
      contract of `ProcessSchema`.) */
  lemma ProcessSchemaColumns(schema: Schema, keys: seq<string>, k: string, t: string)
    requires ProcessSchema(schema, keys).Ok?
    requires k in schema.properties.value
    requires schema.properties.value[k].typ.Union?
    requires t != NullType
    requires multiset(schema.properties.value[k].typ.names)[t] == 1
    requires forall i | 0 <= i < |schema.properties.value[k].typ.names| ::
               schema.properties.value[k].typ.names[i] in {t, NullType}
    ensures ColumnClass(t).Some? ==>
              && k in ProcessSchema(schema, keys).value
              && ProcessSchema(schema, keys).value[k] == Column(ColumnClass(t).value, k in keys)
    ensures ColumnClass(t).None? ==> k !in ProcessSchema(schema, keys).value
  {
    var def := schema.properties.value[k];
    UnionWithOneSurvivor(k, def.typ.names, t, def.anyOf, def.keywords, keys);
  }

  /** A property with no `type` or a null one (whether or not it has
      `anyOf`), or with a `type` that is neither a string nor a list, is
      skipped: dropping it changes neither whether the translation fails
      nor the model it produces. */
  lemma UntypedPropertyIsSkipped(schema: Schema, keys: seq<string>, k: string)
    requires schema.properties.Some? && k in schema.properties.value
    requires !schema.properties.value[k].typ.Single? && !schema.properties.value[k].typ.Union?
    ensures ProcessSchema(schema, keys)
            == ProcessSchema(schema.(properties := Some(schema.properties.value - {k})), keys)
  {
    var smaller := schema.(properties := Some(schema.properties.value - {k}));
    SkippedPropertyKeepsSuccess(schema, keys, k);
    if ProcessSchema(schema, keys).Ok? {
      SkippedPropertyKeepsModel(schema, keys, k);
    }
  }

  lemma SkippedPropertyKeepsSuccess(schema: Schema, keys: seq<string>, k: string)
    requires schema.properties.Some? && k in schema.properties.value
    requires !schema.properties.value[k].typ.Single? && !schema.properties.value[k].typ.Union?
    ensures ProcessSchema(schema, keys).Ok?
            <==> ProcessSchema(schema.(properties := Some(schema.properties.value - {k})), keys).Ok?
  {
    var props := schema.properties.value;
    var rest := props - {k};
    assert TranslateProperty(k, props[k], keys) == Ok(None);
    if forall x | x in rest :: TranslateProperty(x, rest[x], keys).Ok? {
      forall x | x in props
        ensures TranslateProperty(x, props[x], keys).Ok?
      {
        if x != k {
          assert x in rest && rest[x] == props[x];
        }
      }
    }
  }

  lemma SkippedPropertyKeepsModel(schema: Schema, keys: seq<string>, k: string)
    requires schema.properties.Some? && k in schema.properties.value
    requires !schema.properties.value[k].typ.Single? && !schema.properties.value[k].typ.Union?
    requires ProcessSchema(schema, keys).Ok?
    requires ProcessSchema(schema.(properties := Some(schema.properties.value - {k})), keys).Ok?
    ensures ProcessSchema(schema, keys).value
            == ProcessSchema(schema.(properties := Some(schema.properties.value - {k})), keys).value
  {
    var props := schema.properties.value;
    var rest := props - {k};
    assert TranslateProperty(k, props[k], keys) == Ok(None);
    ColumnsWithoutSkipped(props, keys, k);
  }

  lemma ColumnsWithoutSkipped(props: map<string, PropertyDef>, keys: seq<string>, k: string)
    requires forall x | x in props :: TranslateProperty(x, props[x], keys).Ok?
    requires k in props && TranslateProperty(k, props[k], keys) == Ok(None)
    ensures Columns(props, keys) == Columns(props - {k}, keys)
  {
    var m1, m2 := Columns(props, keys), Columns(props - {k}, keys);
    assert m1.Keys == m2.Keys;
  }
}
