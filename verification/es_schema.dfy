/**
 * What the Elasticsearch adapter learns when it describes a table: the
 * logical fields and the describe rows built from an index mapping.
 * These are the specification functions the imperative adapter
 * (module Elasticsearch) is proved against.
 */
module EsSchema {
  import opened Wrappers
  import opened Json

  /** The logical value types the adapter assigns. */
  datatype ValueType = StringType | NumberType | BoolType | TimeType | IntType

  /**
   * Free-form annotation of a field or a describe row: literal text, or
   * `Marshalled(h)`, the JSON encoding of the mapping entry `h` (the bytes
   * themselves are not modelled).
   */
  datatype Extra = Text(s: string) | Marshalled(of: Json)

  /** A field of a table: name, logical type, declared size and extra annotation. */
  datatype Field = Field(name: string, vtype: ValueType, size: nat, extra: Extra)

  /** One row of the table's describe output: field, type, null, key, default, extra. */
  datatype ValuesRow = ValuesRow(
    field: string, esType: string, nullable: string, key: string,
    default: Option<string>, extra: Extra)

  /** Fields and describe rows, each in the order they are appended to the table. */
  datatype Discovered = Discovered(fields: seq<Field>, rows: seq<ValuesRow>)

  /** The adapter's failures. */
  datatype EsError =
    | NoSchema                             // "no schema in use"
    | CouldNotDescribe                     // the mapping response has no keys
    | TableNotFound(db: string, table: string)
    | FetchFailed(reason: string)          // the `_aliases` request failed

  const Empty := Discovered([], [])

  const ObjectTag := "object"
  const ObjectExtra := Text("{\"type\":\"object\"}")
  const DefaultMappingKey := "_default_"
  const FallbackIndexType := "user"

  /** The implicit fields every described table starts with. */
  const IdField := Field("_id", StringType, 24, Text("AUTOGEN"))
  const TypeField := Field("type", StringType, 24, Text("tbd"))
  const ScoreField := Field("_score", NumberType, 24, Text("Created per Search By Elasticsearch"))
  const ImplicitFields: seq<Field> := [IdField, TypeField, ScoreField]

  /** The describe rows of the implicit fields. */
  const IdRow := ValuesRow("_id", "string", "NO", "PRI", Some("AUTOGEN"), Text(""))
  const TypeRow := ValuesRow("type", "string", "NO", "", None, Text("tbd"))
  const ScoreRow := ValuesRow("_score", "float", "NO", "", None, Text("Created per search"))
  const ImplicitRows: seq<ValuesRow> := [IdRow, TypeRow, ScoreRow]

  /**
   * The fixed table from an Elasticsearch mapping type tag to a logical type
   * and size. `None` is the default branch: the entry is treated as an
   * object.
   */
  function EsTypeMapping(tag: string): Option<(ValueType, nat)> {
    match tag
    case "boolean" => Some((BoolType, 1))
    case "string" => Some((StringType, 512))
    case "date" => Some((TimeType, 4))
    case "int" => Some((IntType, 8))
    case "long" => Some((IntType, 8))
    case "integer" => Some((IntType, 8))
    case "nested" => Some((StringType, 2000))
    case _ => None
  }

  /** A type and size that the mapping table, or the object default, can assign. */
  predicate DocumentedType(f: Field) {
    || (f.vtype == BoolType && f.size == 1)
    || (f.vtype == StringType && f.size == 512)
    || (f.vtype == TimeType && f.size == 4)
    || (f.vtype == IntType && f.size == 8)
    || (f.vtype == StringType && f.size == 2000)
  }

  /**
   * Fields and rows discovered from the first `n` members of the mapping
   * object `obj`, every name starting with `prefix`. Each member contributes
   * what `DiscoverMember` says, in member order.
   */
  function Discover(obj: Json, n: nat, prefix: string): (d: Discovered)
    requires n <= Len(obj)
    decreases obj, n
  {
    if n == 0 then Empty
    else
      var front := Discover(obj, n - 1, prefix);
      var last := DiscoverMember(obj, n - 1, prefix);
      Discovered(front.fields + last.fields, front.rows + last.rows)
  }

  /** `jh.Helper(field)` for the key of member `i`: the entry the adapter reads for it. */
  function MemberEntry(obj: Json, i: nat): (h: Json)
    requires i < Len(obj)
    ensures Len(h) > 0 ==> (obj decreases to h)
  {
    Helper(obj, obj.members[i].key)
  }

  /**
   * What member `i` of `obj` contributes: nothing unless looking its key up
   * gives a non-empty object.
   */
  function DiscoverMember(obj: Json, i: nat, prefix: string): (d: Discovered)
    requires i < Len(obj)
    decreases obj, i
  {
    var h := MemberEntry(obj, i);
    if Len(h) == 0 then Empty else DiscoverEntry(h, prefix + obj.members[i].key)
  }

  /**
   * What a non-empty entry `h` named `name` contributes. A mapped tag gives
   * one field and one row. Any other tag gives an "object" field; when the
   * entry has non-empty `properties`, those are discovered under the prefix
   * `name + "."`, their rows after the entry's own row and their fields
   * before the entry's own field.
   */
  function DiscoverEntry(h: Json, name: string): (d: Discovered)
    decreases h, 1
  {
    var tag := Str(h, "type");
    match EsTypeMapping(tag)
    case Some((t, size)) =>
      Discovered([Field(name, t, size, Marshalled(h))],
                 [ValuesRow(name, tag, "YES", "", None, Marshalled(h))])
    case None =>
      var nested := NestedOf(h, name);
      Discovered(nested.fields + [Field(name, StringType, 2000, ObjectExtra)],
                 [ValuesRow(name, ObjectTag, "YES", "", None, ObjectExtra)] + nested.rows)
  }

  /**
   * `h.Helper("properties")`: "properties" holds no path separator, so the
   * helper lookup is the single step `Child`, which the model uses for it.
   */
  lemma PropertiesLookup(h: Json)
    ensures Helper(h, "properties") == Child(h, "properties")
  {
    PropertiesIsPlain();
    PlainHelper(h, "properties");
  }

  lemma PropertiesIsPlain()
    ensures PlainKey("properties")
  {
  }

  /** What the non-empty `properties` of an object entry named `name` contribute. */
  function NestedOf(h: Json, name: string): (d: Discovered)
    decreases h, 0
  {
    var props := Child(h, "properties");
    if Len(props) > 0 then Discover(props, Len(props), name + ".") else Empty
  }

  /** The first `n` members contribute what the first `n - 1` do, then member `n - 1`'s part. */
  lemma DiscoverLast(obj: Json, n: nat, prefix: string)
    requires 0 < n <= Len(obj)
    ensures var d0, m := Discover(obj, n - 1, prefix), DiscoverMember(obj, n - 1, prefix);
      Discover(obj, n, prefix) == Discovered(d0.fields + m.fields, d0.rows + m.rows)
  {
  }

  /** Discovering one more member appends that member's contribution, regrouped for appending. */
  lemma DiscoverNext(obj: Json, i: nat, prefix: string, fields: seq<Field>, rows: seq<ValuesRow>)
    requires i < Len(obj)
    ensures fields + Discover(obj, i + 1, prefix).fields
      == fields + Discover(obj, i, prefix).fields + DiscoverMember(obj, i, prefix).fields
    ensures rows + Discover(obj, i + 1, prefix).rows
      == rows + Discover(obj, i, prefix).rows + DiscoverMember(obj, i, prefix).rows
  {
    DiscoverLast(obj, i + 1, prefix);
    var d0, m := Discover(obj, i, prefix), DiscoverMember(obj, i, prefix);
    Regroup(fields, d0.fields, m.fields);
    Regroup(rows, d0.rows, m.rows);
  }

  lemma Regroup<T>(a: seq<T>, b: seq<T>, c: seq<T>)
    ensures a + (b + c) == a + b + c
  {
  }

  /** The key of member `i` when looking it up gives a non-empty entry, else nothing. */
  function MemberKeys(obj: Json, i: nat): (ks: seq<string>)
    requires i < Len(obj)
  {
    if Len(MemberEntry(obj, i)) > 0 then [obj.members[i].key] else []
  }

  /** The keys of the non-empty members among the first `n`, in member order. */
  function NonEmptyKeys(obj: Json, n: nat): (ks: seq<string>)
    requires n <= Len(obj)
  {
    if n == 0 then [] else NonEmptyKeys(obj, n - 1) + MemberKeys(obj, n - 1)
  }

  /** Every non-empty entry among the first `n` carries a tag of the mapping table. */
  predicate AllMapped(obj: Json, n: nat)
    requires n <= Len(obj)
  {
    forall i :: 0 <= i < n && Len(MemberEntry(obj, i)) > 0 ==> EsTypeMapping(Str(MemberEntry(obj, i), "type")).Some?
  }

  /**
   * Without object entries, discovery is one field and one row per non-empty
   * entry, in member order, each named by the prefix and the entry's key;
   * empty entries are skipped.
   */
  lemma FlatDiscovery(obj: Json, n: nat, prefix: string)
    requires n <= Len(obj) && AllMapped(obj, n)
    ensures var d := Discover(obj, n, prefix);
      var ks := NonEmptyKeys(obj, n);
      && |d.fields| == |d.rows| == |ks|
      && forall k :: 0 <= k < |ks| ==> d.fields[k].name == prefix + ks[k] && d.rows[k].field == prefix + ks[k]
  {
    forall i | 0 <= i < n
      ensures Named(DiscoverMember(obj, i, prefix), MemberKeys(obj, i), prefix)
    {
      var h := MemberEntry(obj, i);
      if Len(h) > 0 {
        MappedEntry(h, prefix + obj.members[i].key);
      }
    }
    FlatMembers(obj, n, prefix);
  }

  /** One field and one row per key, position by position, each named by the prefix and the key. */
  predicate Named(d: Discovered, ks: seq<string>, prefix: string)
  {
    && |d.fields| == |d.rows| == |ks|
    && forall k :: 0 <= k < |ks| ==> d.fields[k].name == prefix + ks[k] && d.rows[k].field == prefix + ks[k]
  }

  lemma JoinNamed(a: Discovered, ka: seq<string>, b: Discovered, kb: seq<string>, prefix: string)
    requires Named(a, ka, prefix) && Named(b, kb, prefix)
    ensures Named(Discovered(a.fields + b.fields, a.rows + b.rows), ka + kb, prefix)
  {
    var d, ks := Discovered(a.fields + b.fields, a.rows + b.rows), ka + kb;
    forall k | 0 <= k < |ks|
      ensures d.fields[k].name == prefix + ks[k] && d.rows[k].field == prefix + ks[k]
    {
      if k >= |ka| {
        assert d.fields[k] == b.fields[k - |ka|] && d.rows[k] == b.rows[k - |ka|] && ks[k] == kb[k - |ka|];
      } else {
        assert d.fields[k] == a.fields[k] && d.rows[k] == a.rows[k] && ks[k] == ka[k];
      }
    }
  }

  /** The induction behind `FlatDiscovery`, over members that each contribute flatly. */
  lemma {:induction false} FlatMembers(obj: Json, n: nat, prefix: string)
    requires n <= Len(obj)
    requires forall i :: 0 <= i < n ==> Named(DiscoverMember(obj, i, prefix), MemberKeys(obj, i), prefix)
    ensures Named(Discover(obj, n, prefix), NonEmptyKeys(obj, n), prefix)
  {
    if n > 0 {
      FlatMembers(obj, n - 1, prefix);
      var d0, m := Discover(obj, n - 1, prefix), DiscoverMember(obj, n - 1, prefix);
      assert Named(m, MemberKeys(obj, n - 1), prefix);
      JoinNamed(d0, NonEmptyKeys(obj, n - 1), m, MemberKeys(obj, n - 1), prefix);
      DiscoverLast(obj, n, prefix);
    }
  }

  /** A non-empty entry with a mapped tag contributes one field and one row, both named `name`. */
  lemma MappedEntry(h: Json, name: string)
    requires EsTypeMapping(Str(h, "type")).Some?
    ensures var d := DiscoverEntry(h, name);
      |d.fields| == 1 && |d.rows| == 1 && d.fields[0].name == name && d.rows[0].field == name
  {
  }

  /**
   * One describe row per field, every field and row named under `prefix`,
   * and every field typed and sized as the mapping table (or the object
   * default) allows.
   */
  predicate Under(d: Discovered, prefix: string)
  {
    && |d.fields| == |d.rows|
    && (forall f :: f in d.fields ==> prefix <= f.name && DocumentedType(f))
    && (forall w :: w in d.rows ==> prefix <= w.field)
  }

  lemma JoinUnder(a: Discovered, b: Discovered, prefix: string)
    requires Under(a, prefix) && Under(b, prefix)
    ensures Under(Discovered(a.fields + b.fields, a.rows + b.rows), prefix)
  {
  }

  /** Every discovered field has one row, every name starts with the prefix, every type is documented. */
  lemma {:induction false} DiscoverWellFormed(obj: Json, n: nat, prefix: string)
    requires n <= Len(obj)
    ensures Under(Discover(obj, n, prefix), prefix)
    decreases obj, n
  {
    if n > 0 {
      DiscoverWellFormed(obj, n - 1, prefix);
      MemberWellFormed(obj, n - 1, prefix);
      var d0, m := Discover(obj, n - 1, prefix), DiscoverMember(obj, n - 1, prefix);
      JoinUnder(d0, m, prefix);
      DiscoverLast(obj, n, prefix);
    }
  }

  /** The same facts for what one member contributes. */
  lemma MemberWellFormed(obj: Json, i: nat, prefix: string)
    requires i < Len(obj)
    ensures Under(DiscoverMember(obj, i, prefix), prefix)
    decreases obj, i
  {
    var h := MemberEntry(obj, i);
    if Len(h) > 0 {
      var name := prefix + obj.members[i].key;
      EntryWellFormed(h, name);
      UnderLongerPrefix(prefix, name, DiscoverEntry(h, name));
    }
  }

  /** Everything discovered under an entry named `name` is named under `name`. */
  lemma {:induction false} EntryWellFormed(h: Json, name: string)
    ensures Under(DiscoverEntry(h, name), name)
    decreases h, 1
  {
    if EsTypeMapping(Str(h, "type")).None? {
      var props := Child(h, "properties");
      if Len(props) > 0 {
        DiscoverWellFormed(props, Len(props), name + ".");
        UnderLongerPrefix(name, name + ".", NestedOf(h, name));
      }
    }
  }

  /** Names under `longer` are also under `prefix` when `longer` extends `prefix`. */
  lemma UnderLongerPrefix(prefix: string, longer: string, d: Discovered)
    requires prefix <= longer
    requires forall f :: f in d.fields ==> longer <= f.name
    requires forall w :: w in d.rows ==> longer <= w.field
    ensures forall f :: f in d.fields ==> prefix <= f.name
    ensures forall w :: w in d.rows ==> prefix <= w.field
  {
    forall f | f in d.fields ensures prefix <= f.name {
      PrefixTransitive(prefix, longer, f.name);
    }
    forall w | w in d.rows ensures prefix <= w.field {
      PrefixTransitive(prefix, longer, w.field);
    }
  }

  lemma PrefixTransitive(a: string, b: string, c: string)
    requires a <= b && b <= c
    ensures a <= c
  {
    assert a == b[..|a|] && b == c[..|b|];
  }

  /**
   * The contribution of one non-empty entry named `name`: exactly one
   * field and one row named `name`, typed by the mapping table; for an
   * object entry also the nested fields, all named under `name + "."`,
   * whose fields come before the entry's own field and whose rows come
   * after the entry's own row.
   */
  lemma EntryContribution(h: Json, name: string)
    ensures var d := DiscoverEntry(h, name);
      var tag := Str(h, "type");
      && |d.fields| > 0 && |d.rows| > 0
      && d.fields[|d.fields| - 1].name == name && d.rows[0].field == name
      && (forall j :: 0 <= j < |d.fields| - 1 ==> name + "." <= d.fields[j].name)
      && (forall j :: 1 <= j < |d.rows| ==> name + "." <= d.rows[j].field)
      && match EsTypeMapping(tag)
         case Some((t, size)) =>
           && d.fields == [Field(name, t, size, Marshalled(h))]
           && d.rows == [ValuesRow(name, tag, "YES", "", None, Marshalled(h))]
         case None =>
           && d.fields[|d.fields| - 1] == Field(name, StringType, 2000, ObjectExtra)
           && d.rows[0] == ValuesRow(name, ObjectTag, "YES", "", None, ObjectExtra)
           && (Len(Child(h, "properties")) == 0 ==> |d.fields| == 1 && |d.rows| == 1)
  {
    if EsTypeMapping(Str(h, "type")).None? {
      var nested := NestedOf(h, name);
      var props := Child(h, "properties");
      if Len(props) > 0 {
        DiscoverWellFormed(props, Len(props), name + ".");
      }
      var d := DiscoverEntry(h, name);
      assert d.fields == nested.fields + [Field(name, StringType, 2000, ObjectExtra)];
      assert forall j :: 0 <= j < |d.fields| - 1 ==> d.fields[j] in nested.fields;
      assert forall j :: 1 <= j < |d.rows| ==> d.rows[j] in nested.rows;
    }
  }

  /** The index type picked from the mapping keys: the first one that is not `_default_`, else "user". */
  function IndexType(keys: seq<string>): (t: string)
    ensures (forall i :: 0 <= i < |keys| ==> keys[i] == DefaultMappingKey) ==> t == FallbackIndexType
    ensures forall i ::
      (0 <= i < |keys| && keys[i] != DefaultMappingKey &&
       forall j :: 0 <= j < i ==> keys[j] == DefaultMappingKey) ==> t == keys[i]
  {
    if keys == [] then FallbackIndexType
    else if keys[0] != DefaultMappingKey then keys[0]
    else IndexType(keys[1..])
  }

  /**
   * The `<table>.mappings` object of a `_mapping` response, looked up as
   * one helper path built from the table name.
   */
  function Mappings(table: string, resp: Json): Json {
    Helper(resp, table + ".mappings")
  }

  /** For a table name without a path separator, the index's own `mappings` object. */
  lemma PlainMappings(table: string, resp: Json)
    requires PlainKey(table)
    ensures Mappings(table, resp) == Child(Child(resp, table), "mappings")
  {
    MappingsKey(table);
    MappingsIsPlain();
    DottedPairHelper(resp, table, "mappings");
  }

  /**
   * An index whose name holds a dot is not described when the response has
   * no member named by the part before the first dot, even when it holds
   * the index under its full name.
   */
  lemma DottedIndexNotDescribed(a: string, b: string, resp: Json)
    requires PlainKey(a) && !Has(b, '/') && Get(resp, a).None?
    ensures Describe(a + "." + b, resp) == Err(CouldNotDescribe)
  {
    var rest := b + "." + "mappings";
    MappingsKey(a + "." + b);
    Regroup(a + ".", b + ".", "mappings");
    Regroup(a + ".", b, ".");
    MappingsIsPlain();
    SlashFreeDotted(b, "mappings");
    DottedKeyMissing(resp, a, rest);
    assert Len(Mappings(a + "." + b, resp)) == 0;
  }

  lemma MappingsKey(table: string)
    ensures table + ".mappings" == table + "." + "mappings"
  {
  }

  lemma MappingsIsPlain()
    ensures PlainKey("mappings")
  {
  }

  /**
   * A mapping entry whose key holds a dot is skipped when the object has no
   * member named by the part before the first dot.
   */
  lemma DottedFieldSkipped(obj: Json, i: nat, prefix: string, a: string, b: string)
    requires i < Len(obj) && obj.members[i].key == a + "." + b
    requires PlainKey(a) && !Has(b, '/') && Get(obj, a).None?
    ensures DiscoverMember(obj, i, prefix) == Empty
  {
    DottedKeyMissing(obj, a, b);
  }

  /** The `properties` object of the chosen index type. */
  function IndexProperties(mappings: Json): Json {
    Child(Helper(mappings, IndexType(Keys(mappings))), "properties")
  }

  /**
   * The fields and rows of a freshly described table, or the error when the
   * mapping response has no keys.
   */
  function Describe(table: string, resp: Json): (r: Result<Discovered, EsError>)
    ensures r.Err? <==> Len(Mappings(table, resp)) == 0
    ensures r.Err? ==> r.error == CouldNotDescribe
    ensures r.Ok? ==>
      && |r.value.fields| == |r.value.rows| >= 3
      && r.value.fields[..3] == ImplicitFields
      && r.value.rows[..3] == ImplicitRows
  {
    var mappings := Mappings(table, resp);
    if Len(mappings) < 1 then Err(CouldNotDescribe)
    else
      var props := IndexProperties(mappings);
      var d := Discover(props, Len(props), "");
      DiscoverWellFormed(props, Len(props), "");
      Ok(Discovered(ImplicitFields + d.fields, ImplicitRows + d.rows))
  }
}
