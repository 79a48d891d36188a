/** The JSON-Schema type name to Cassandra column class table
    (target_cassandra/__init__.py, `JSONSCHEMA_TO_CASSANDRA`). */
module TypeTable {
  import opened Outcomes

  /** The column classes the table can produce; only the tag matters here. */
  datatype ColumnKind = Text | Boolean | Integer | Float

  /** The table as written: `array` and `null` are present but map to no
      class, and `object` is not present at all. */
  const JsonSchemaToCassandra: map<string, Option<ColumnKind>> :=
    map[
      "string"  := Some(Text),
      "array"   := None,
      "boolean" := Some(Boolean),
      "integer" := Some(Integer),
      "number"  := Some(Float),
      "null"    := None
    ]

  /** `JSONSCHEMA_TO_CASSANDRA.get(t)`: an absent entry and an entry mapped
      to None are indistinguishable to the caller. */
  function ColumnClass(t: string): (r: Option<ColumnKind>)
    ensures r == Some(Text) <==> t == "string"
    ensures r == Some(Boolean) <==> t == "boolean"
    ensures r == Some(Integer) <==> t == "integer"
    ensures r == Some(Float) <==> t == "number"
    ensures r.None? <==> t !in {"string", "boolean", "integer", "number"}
  {
    if t in JsonSchemaToCassandra then JsonSchemaToCassandra[t] else None
  }
}
