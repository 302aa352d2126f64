/**
 * The two test entities the Google Datastore backend stores, Article and User,
 * with their hand-written property-list encoders: `Save` lays an entity out as
 * a fixed list of named properties, each either indexed or not, and `Load`
 * reads a property list back.
 */
module DatastoreEntities {
  import opened Wrappers
  import opened GoTypes

  /** A time.Time, kept as an uninterpreted instant. */
  datatype Instant = Instant(unixNanos: int)

  /** A float64, kept as its IEEE 754 bit pattern. */
  datatype Float64 = Float64(bits: bv64)

  /** The article's embedded struct. */
  datatype Embedded = Embedded(tag: string, ict: int64)

  /** A value that is stored as its JSON encoding; the encoding itself is left symbolic. */
  datatype Marshalled = JsonStrings(strs: seq<string>) | JsonEmbedded(e: Embedded)

  /** The value of one datastore property. */
  datatype PropValue =
    | NilValue
    | StringValue(s: string)
    | IntValue(i: int64)
    | Int64Value(i: int64)
    | BoolValue(b: bool)
    | TimeValue(t: Instant)
    | FloatValue(f: Float64)
    | BytesValue(bytes: seq<byte>)
    | JsonValue(doc: Marshalled)

  datatype Property = Property(name: string, value: PropValue, noIndex: bool)

  /** The zero Property a freshly made slice holds. */
  const ZeroProperty := Property("", NilValue, false)

  /** The property names an article is saved under, in order. */
  const ArticleNames: seq<string> :=
    ["title", "author", "count", "count64", "deleted", "category", "created", "updated", "f", "embedded", "body"]

  /** The article properties that are not indexed. */
  const ArticleUnindexed: set<string> := {"category", "embedded", "body"}

  /** The property names a user is saved under, in order. */
  const UserNames: seq<string> := ["id", "name", "deleted", "roles", "created", "updated"]

  /** The user properties that are not indexed. */
  const UserUnindexed: set<string> := {"roles"}

  /**
   * The value of the first property called `name`, if any. The entities'
   * code never looks a property up by name; this and the lemmas below state
   * a property of the two layouts: every saved value can be found under its
   * own name.
   */
  function Lookup(props: seq<Property>, name: string): (r: Option<PropValue>)
    ensures r.None? <==> forall i :: 0 <= i < |props| ==> props[i].name != name
    ensures r.Some? ==> exists i ::
      (0 <= i < |props| && props[i].name == name && props[i].value == r.value &&
       forall j :: 0 <= j < i ==> props[j].name != name)
  {
    if |props| == 0 then None
    else if props[0].name == name then Some(props[0].value)
    else Lookup(props[1..], name)
  }

  /** No two properties of the list share a name. */
  predicate DistinctNames(props: seq<Property>)
  {
    forall i, j :: 0 <= i < j < |props| ==> props[i].name != props[j].name
  }

  /** With distinct names, looking a property up by its name finds it. */
  lemma {:induction false} LookupFindsByName(props: seq<Property>, i: nat)
    requires DistinctNames(props) && i < |props|
    ensures Lookup(props, props[i].name) == Some(props[i].value)
  {
    if i > 0 {
      assert props[1..][i - 1] == props[i];
      LookupFindsByName(props[1..], i - 1);
    }
  }

  /** The names of a property list follow `names` position by position. */
  predicate Laid(props: seq<Property>, names: seq<string>)
  {
    |props| == |names| && forall i :: 0 <= i < |props| ==> props[i].name == names[i]
  }

  /** Both layouts use distinct names, so every saved field can be found by name. */
  lemma LayoutsAreDistinct(props: seq<Property>)
    ensures Laid(props, ArticleNames) ==> DistinctNames(props)
    ensures Laid(props, UserNames) ==> DistinctNames(props)
  {
  }

  class Article {
    var title: string
    var author: string
    var count: int64
    var count64: int64
    var deleted: bool
    var category: seq<string>
    var created: Instant
    var updated: Option<Instant>
    var f: Float64
    var embedded: Embedded
    var body: Option<seq<byte>>

    constructor ()
      ensures title == "" && author == "" && count == 0 && count64 == 0 && !deleted
      ensures category == [] && updated.None? && body.None?
    {
      title, author, count, count64, deleted := "", "", 0, 0, false;
      category, created, updated := [], Instant(0), None;
      f, embedded, body := Float64(0), Embedded("", 0), None;
    }

    /**
     * The eleven properties of the article in their fixed order; only the
     * category, the embedded struct and the body are left unindexed, and a
     * missing body is stored as no bytes. The update time must be present.
     */
    method Save() returns (props: seq<Property>, err: Option<string>)
      requires updated.Some?
      ensures err.None?
      ensures Laid(props, ArticleNames)
      ensures forall i :: 0 <= i < |props| ==> (props[i].noIndex <==> props[i].name in ArticleUnindexed)
      ensures props[0].value == StringValue(title) && props[1].value == StringValue(author)
      ensures props[2].value == IntValue(count) && props[3].value == Int64Value(count64)
      ensures props[4].value == BoolValue(deleted) && props[5].value == JsonValue(JsonStrings(category))
      ensures props[6].value == TimeValue(created) && props[7].value == TimeValue(updated.value)
      ensures props[8].value == FloatValue(f) && props[9].value == JsonValue(JsonEmbedded(embedded))
      ensures props[10].value == BytesValue(if body.Some? then body.value else [])
    {
      var z := ZeroProperty;
      var a := [z, z, z, z, z, z, z, z, z, z, z];
      a := a[0 := Property("title", StringValue(title), false)];
      a := a[1 := Property("author", StringValue(author), false)];
      a := a[2 := Property("count", IntValue(count), false)];
      a := a[3 := Property("count64", Int64Value(count64), false)];
      a := a[4 := Property("deleted", BoolValue(deleted), false)];
      var cat := JsonStrings(category);
      a := a[5 := Property("category", JsonValue(cat), true)];
      a := a[6 := Property("created", TimeValue(created), false)];
      a := a[7 := Property("updated", TimeValue(updated.value), false)];
      a := a[8 := Property("f", FloatValue(f), false)];
      var embed := JsonEmbedded(embedded);
      a := a[9 := Property("embedded", JsonValue(embed), true)];
      var bytes := if body.Some? then body.value else [];
      a := a[10 := Property("body", BytesValue(bytes), true)];
      assert a == [
        Property("title", StringValue(title), false), Property("author", StringValue(author), false),
        Property("count", IntValue(count), false), Property("count64", Int64Value(count64), false),
        Property("deleted", BoolValue(deleted), false), Property("category", JsonValue(cat), true),
        Property("created", TimeValue(created), false), Property("updated", TimeValue(updated.value), false),
        Property("f", FloatValue(f), false), Property("embedded", JsonValue(embed), true),
        Property("body", BytesValue(bytes), true)];
      props := a;
      err := None;
    }

    /** Maps no property: whatever the list holds, the article is unchanged. */
    method Load(props: seq<Property>) returns (err: Option<string>)
      ensures err.None?
    {
      err := None;
    }
  }

  /** Every field of a saved article can be found under its own name. */
  lemma SavedArticleLookups(props: seq<Property>)
    requires Laid(props, ArticleNames)
    ensures forall i :: 0 <= i < |props| ==> Lookup(props, ArticleNames[i]) == Some(props[i].value)
  {
    LayoutsAreDistinct(props);
    forall i | 0 <= i < |props|
      ensures Lookup(props, ArticleNames[i]) == Some(props[i].value)
    {
      LookupFindsByName(props, i);
    }
  }

  /** Every field of a saved user can be found under its own name. */
  lemma SavedUserLookups(props: seq<Property>)
    requires Laid(props, UserNames)
    ensures forall i :: 0 <= i < |props| ==> Lookup(props, UserNames[i]) == Some(props[i].value)
  {
    LayoutsAreDistinct(props);
    forall i | 0 <= i < |props|
      ensures Lookup(props, UserNames[i]) == Some(props[i].value)
    {
      LookupFindsByName(props, i);
    }
  }

  /** Every property called "id" holds a string, as the user loader demands. */
  predicate IdsAreStrings(props: seq<Property>)
  {
    forall i :: 0 <= i < |props| && props[i].name == "id" ==> props[i].value.StringValue?
  }

  /** The id the user loader ends with: the last "id" property read, else the one it started with. */
  function LoadedId(start: string, props: seq<Property>): (id: string)
    requires IdsAreStrings(props)
  {
    if |props| == 0 then start
    else
      var last := props[|props| - 1];
      if last.name == "id" then last.value.s else LoadedId(start, props[..|props| - 1])
  }

  /** The loaded id is the value of the last "id" property. */
  lemma {:induction false} LoadedIdIsLast(start: string, props: seq<Property>, i: nat)
    requires IdsAreStrings(props) && i < |props| && props[i].name == "id"
    requires forall j :: i < j < |props| ==> props[j].name != "id"
    ensures LoadedId(start, props) == props[i].value.s
    decreases |props|
  {
    if i < |props| - 1 {
      var front := props[..|props| - 1];
      assert front[i] == props[i];
      LoadedIdIsLast(start, front, i);
    }
  }

  /** Without an "id" property the loaded id is the one it started with. */
  lemma {:induction false} LoadedIdWithoutId(start: string, props: seq<Property>)
    requires forall j :: 0 <= j < |props| ==> props[j].name != "id"
    ensures LoadedId(start, props) == start
    decreases |props|
  {
    if |props| > 0 {
      LoadedIdWithoutId(start, props[..|props| - 1]);
    }
  }

  class User {
    var id: string
    var name: string
    var deleted: bool
    var roles: seq<string>
    var created: Instant
    var updated: Option<Instant>

    constructor ()
      ensures id == "" && name == "" && !deleted && roles == [] && updated.None?
    {
      id, name, deleted, roles := "", "", false, [];
      created, updated := Instant(0), None;
    }

    /**
     * The six properties of the user in their fixed order; only the roles are
     * left unindexed, and the "name" property carries the id. The update time
     * must be present.
     */
    method Save() returns (props: seq<Property>, err: Option<string>)
      requires updated.Some?
      ensures err.None?
      ensures Laid(props, UserNames)
      ensures forall i :: 0 <= i < |props| ==> (props[i].noIndex <==> props[i].name in UserUnindexed)
      ensures props[0].value == StringValue(id) && props[1].value == StringValue(id)
      ensures props[2].value == BoolValue(deleted) && props[3].value == JsonValue(JsonStrings(roles))
      ensures props[4].value == TimeValue(created) && props[5].value == TimeValue(updated.value)
    {
      var z := ZeroProperty;
      var a := [z, z, z, z, z, z];
      var r := JsonStrings(roles);
      a := a[0 := Property("id", StringValue(id), false)];
      a := a[1 := Property("name", StringValue(id), false)];
      a := a[2 := Property("deleted", BoolValue(deleted), false)];
      a := a[3 := Property("roles", JsonValue(r), true)];
      a := a[4 := Property("created", TimeValue(created), false)];
      a := a[5 := Property("updated", TimeValue(updated.value), false)];
      props := a;
      err := None;
    }

    /**
     * Sets the id from the "id" properties (the last one wins) and changes
     * nothing else; every "id" property must hold a string.
     */
    method Load(props: seq<Property>) returns (err: Option<string>)
      requires IdsAreStrings(props)
      modifies this`id
      ensures err.None?
      ensures id == LoadedId(old(id), props)
    {
      var i := 0;
      while i < |props|
        invariant 0 <= i <= |props|
        invariant id == LoadedId(old(id), props[..i])
      {
        var p := props[i];
        if p.name == "id" {
          id := p.value.s;
        }
        assert props[..i + 1][..i] == props[..i];
        i := i + 1;
      }
      assert props[..i] == props;
      err := None;
    }
  }

  /** Saving a user and loading the properties back restores the same id. */
  method SaveThenLoad(u: User) returns (props: seq<Property>)
    requires u.updated.Some?
    modifies u`id
    ensures u.id == old(u.id)
    ensures Laid(props, UserNames)
  {
    var err;
    props, err := u.Save();
    LoadedIdIsLast(u.id, props, 0);
    err := u.Load(props);
  }
}
