/** Flattening of nested records (target_cassandra/__init__.py, `flatten`).
    Nothing in the target calls it; it is modelled on its own. */
module Flattening {
  import opened JsonValues

  /** The default separator of `flatten`. */
  const DefaultSeparator := "__"

  /** The key of an entry under `parent`; an empty parent is falsy, so the
      entry keeps its own key. */
  function NewKey(parent: string, sep: string, k: string): string {
    if parent != "" then parent + sep + k else k
  }

  /** A value `flatten` can leave in its result: neither a mapping (those
      are descended into) nor a list (those are stringified). */
  predicate IsLeaf(v: Json) {
    !v.Object? && !v.Array?
  }

  /** The value stored for a non-mapping entry: a list is replaced by its
      string form `str(v)`, which the model takes as the parameter `str`;
      every other value is kept. */
  function LeafValue(v: Json, str: seq<Json> -> string): Json
    requires !v.Object?
  {
    if v.Array? then Str(str(v.items)) else v
  }

  /** Termination measure helper: a mapping ranks above its own entries. */
  function Width(v: Json): nat {
    if v.Object? then |v.fields| + 1 else 0
  }

  /** The contribution of one entry (k, v) under `parent`. */
  function Entry(k: string, v: Json, parent: string, sep: string, str: seq<Json> -> string): map<string, Json>
    decreases v, Width(v)
  {
    match v
    case Object(fs) => FlattenFrom(fs, 0, NewKey(parent, sep, k), sep, str)
    case _ => map[NewKey(parent, sep, k) := LeafValue(v, str)]
  }

  /** The entries of `d` from index `i` on; a later entry overrides an
      earlier one with the same flattened key, as `dict(items)` does. */
  function FlattenFrom(d: seq<(string, Json)>, i: nat, parent: string, sep: string, str: seq<Json> -> string): map<string, Json>
    requires i <= |d|
    decreases Object(d), |d| - i
  {
    if i == |d| then map[]
    else
      assert d[i] in d;
      Entry(d[i].0, d[i].1, parent, sep, str) + FlattenFrom(d, i + 1, parent, sep, str)
  }

  /** `flatten(d, parent_key, sep)`. The result is flat (no value is a
      mapping or a list), every non-mapping entry leaves a key built from
      its own, and below a non-empty parent every key starts with
      `parent + sep`. */
  function Flatten(d: seq<(string, Json)>, parent: string, sep: string, str: seq<Json> -> string): (r: map<string, Json>)
    ensures forall key | key in r :: IsLeaf(r[key])
    ensures forall j | 0 <= j < |d| && !d[j].1.Object? :: NewKey(parent, sep, d[j].0) in r
    ensures parent != "" ==> forall key | key in r :: Under(key, parent + sep)
  {
    FlattenFromLeaves(d, 0, parent, sep, str);
    FlattenFromLeafKeys(d, 0, parent, sep, str);
    FlattenFromUnderNonEmpty(d, parent, sep, str);
    FlattenFrom(d, 0, parent, sep, str)
  }

  /** `flatten(d)` with its default arguments: no parent and `__`. Every
      top-level non-mapping entry keeps its own key, and no value of the
      result is a mapping or a list. */
  function FlattenDefault(d: seq<(string, Json)>, str: seq<Json> -> string): (r: map<string, Json>)
    ensures forall key | key in r :: IsLeaf(r[key])
    ensures forall j | 0 <= j < |d| && !d[j].1.Object? :: d[j].0 in r
  {
    Flatten(d, "", DefaultSeparator, str)
  }

  lemma {:induction false} FlattenFromLeafKeys(d: seq<(string, Json)>, i: nat, parent: string, sep: string, str: seq<Json> -> string)
    requires i <= |d|
    ensures forall j | i <= j < |d| && !d[j].1.Object? :: NewKey(parent, sep, d[j].0) in FlattenFrom(d, i, parent, sep, str)
    decreases |d| - i
  {
    if i < |d| {
      FlattenFromLeafKeys(d, i + 1, parent, sep, str);
    }
  }

  lemma {:induction false} FlattenFromAppend(d: seq<(string, Json)>, e: (string, Json), i: nat, parent: string, sep: string, str: seq<Json> -> string)
    requires i <= |d|
    ensures FlattenFrom(d + [e], i, parent, sep, str)
            == FlattenFrom(d, i, parent, sep, str) + Entry(e.0, e.1, parent, sep, str)
    decreases |d| - i
  {
    if i < |d| {
      assert (d + [e])[i] == d[i];
      FlattenFromAppend(d, e, i + 1, parent, sep, str);
    } else {
      assert (d + [e])[i] == e;
    }
  }

  /** The loop of `flatten` read one entry at a time: appending an entry
      adds exactly its contribution, overriding earlier keys. */
  lemma FlattenAppend(d: seq<(string, Json)>, k: string, v: Json, parent: string, sep: string, str: seq<Json> -> string)
    ensures Flatten(d + [(k, v)], parent, sep, str)
            == Flatten(d, parent, sep, str) + Entry(k, v, parent, sep, str)
  {
    FlattenFromAppend(d, (k, v), 0, parent, sep, str);
  }

  /** A non-mapping entry is stored under its own key at the top level, and
      under `parent + sep + key` below it; a list is stored as its string
      form and any other value unchanged. */
  lemma FlattenLeafEntry(d: seq<(string, Json)>, k: string, v: Json, parent: string, sep: string, str: seq<Json> -> string)
    requires !v.Object?
    ensures Flatten(d + [(k, v)], parent, sep, str)
            == Flatten(d, parent, sep, str)[(if parent == "" then k else parent + sep + k) := LeafValue(v, str)]
    ensures v.Array? ==> Flatten(d + [(k, v)], parent, sep, str)[NewKey(parent, sep, k)] == Str(str(v.items))
    ensures !v.Array? ==> Flatten(d + [(k, v)], parent, sep, str)[NewKey(parent, sep, k)] == v
  {
    FlattenAppend(d, k, v, parent, sep, str);
  }

  /** A nested mapping is flattened recursively with the entry's key as the
      new parent; in particular an empty nested mapping contributes nothing. */
  lemma FlattenNestedEntry(d: seq<(string, Json)>, k: string, fs: seq<(string, Json)>, parent: string, sep: string, str: seq<Json> -> string)
    ensures Flatten(d + [(k, Object(fs))], parent, sep, str)
            == Flatten(d, parent, sep, str) + Flatten(fs, NewKey(parent, sep, k), sep, str)
    ensures fs == [] ==> Flatten(d + [(k, Object(fs))], parent, sep, str) == Flatten(d, parent, sep, str)
  {
    FlattenAppend(d, k, Object(fs), parent, sep, str);
  }

  lemma {:induction false} EntryLeaves(k: string, v: Json, parent: string, sep: string, str: seq<Json> -> string)
    ensures forall key | key in Entry(k, v, parent, sep, str) :: IsLeaf(Entry(k, v, parent, sep, str)[key])
    decreases v, Width(v)
  {
    if v.Object? {
      FlattenFromLeaves(v.fields, 0, NewKey(parent, sep, k), sep, str);
    }
  }

  lemma {:induction false} FlattenFromLeaves(d: seq<(string, Json)>, i: nat, parent: string, sep: string, str: seq<Json> -> string)
    requires i <= |d|
    ensures forall key | key in FlattenFrom(d, i, parent, sep, str) :: IsLeaf(FlattenFrom(d, i, parent, sep, str)[key])
    decreases Object(d), |d| - i
  {
    if i < |d| {
      assert d[i] in d;
      EntryLeaves(d[i].0, d[i].1, parent, sep, str);
      FlattenFromLeaves(d, i + 1, parent, sep, str);
    }
  }

  /** `prefix` is a prefix of `key`. */
  predicate Under(key: string, prefix: string) {
    |prefix| <= |key| && key[..|prefix|] == prefix
  }

  lemma {:induction false} EntryUnder(k: string, v: Json, parent: string, sep: string, str: seq<Json> -> string)
    requires parent != ""
    ensures forall key | key in Entry(k, v, parent, sep, str) :: Under(key, parent + sep)
    decreases v, Width(v)
  {
    var q := parent + sep + k;
    if v.Object? {
      FlattenFromUnder(v.fields, 0, q, sep, str);
      forall key | key in Entry(k, v, parent, sep, str)
        ensures Under(key, parent + sep)
      {
        assert Under(key, q + sep);
        assert key[..|parent + sep|] == (q + sep)[..|parent + sep|];
      }
    } else {
      assert q[..|parent + sep|] == parent + sep;
    }
  }

  lemma {:induction false} FlattenFromUnder(d: seq<(string, Json)>, i: nat, parent: string, sep: string, str: seq<Json> -> string)
    requires i <= |d|
    requires parent != ""
    ensures forall key | key in FlattenFrom(d, i, parent, sep, str) :: Under(key, parent + sep)
    decreases Object(d), |d| - i
  {
    if i < |d| {
      assert d[i] in d;
      EntryUnder(d[i].0, d[i].1, parent, sep, str);
      FlattenFromUnder(d, i + 1, parent, sep, str);
    }
  }

  lemma FlattenFromUnderNonEmpty(d: seq<(string, Json)>, parent: string, sep: string, str: seq<Json> -> string)
    ensures parent != "" ==> forall key | key in FlattenFrom(d, 0, parent, sep, str) :: Under(key, parent + sep)
  {
    if parent != "" {
      FlattenFromUnder(d, 0, parent, sep, str);
    }
  }
}
