/**
 * A decoded JSON document, as the HTTP metadata helper hands it to the
 * Elasticsearch adapter. An object is the list of its members in the order
 * one iteration over the underlying Go map visits them; Go maps have
 * distinct keys, and every lookup below takes the first member with a key.
 */
module Json {
  import opened Wrappers

  datatype Json =
    | JNull
    | JBool(b: bool)
    | JNum(r: real)
    | JStr(s: string)
    | JArr(items: seq<Json>)
    | JObj(members: seq<Member>)

  datatype Member = Member(key: string, val: Json)

  /** The members of an object; a value that is not an object has none (a nil helper). */
  function Members(j: Json): (ms: seq<Member>)
    ensures j.JObj? ==> ms == j.members
    ensures !j.JObj? ==> ms == []
  {
    if j.JObj? then j.members else []
  }

  /** `len(helper)`: the number of keys of an object. */
  function Len(j: Json): nat {
    |Members(j)|
  }

  /** `helper.Keys()`, in iteration order. */
  function Keys(j: Json): (ks: seq<string>)
    ensures |ks| == Len(j)
    ensures forall i :: 0 <= i < |ks| ==> ks[i] == Members(j)[i].key
  {
    KeysOf(Members(j))
  }

  function KeysOf(ms: seq<Member>): (ks: seq<string>)
    ensures |ks| == |ms|
    ensures forall i :: 0 <= i < |ks| ==> ks[i] == ms[i].key
  {
    if ms == [] then [] else [ms[0].key] + KeysOf(ms[1..])
  }

  /** Position of the first member named `key`. */
  function IndexOf(ms: seq<Member>, key: string): (r: Option<nat>)
    ensures r.Some? ==> r.value < |ms| && ms[r.value].key == key
  {
    if ms == [] then None
    else if ms[0].key == key then Some(0)
    else match IndexOf(ms[1..], key)
      case None => None
      case Some(i) => Some(i + 1)
  }

  /** The position found is the first with the key, and no position has it when none is found. */
  lemma {:induction false} IndexOfFirst(ms: seq<Member>, key: string)
    ensures var r := IndexOf(ms, key);
      && (r.Some? ==> forall i :: 0 <= i < r.value ==> ms[i].key != key)
      && (r.None? ==> forall i :: 0 <= i < |ms| ==> ms[i].key != key)
  {
    if ms != [] && ms[0].key != key {
      IndexOfFirst(ms[1..], key);
      assert forall i :: 1 <= i < |ms| ==> ms[i] == ms[1..][i - 1];
    }
  }

  /** No two members of the object share a key, as in the Go map it was decoded into. */
  predicate DistinctKeys(j: Json)
  {
    forall i, k :: 0 <= i < k < Len(j) ==> Members(j)[i].key != Members(j)[k].key
  }

  /** With distinct keys, looking up a member's key finds that member's value. */
  lemma GetMember(j: Json, i: nat)
    requires DistinctKeys(j) && i < Len(j)
    ensures Get(j, Members(j)[i].key) == Some(Members(j)[i].val)
  {
    var r := IndexOf(Members(j), Members(j)[i].key);
    IndexOfFirst(Members(j), Members(j)[i].key);
    assert r == Some(i);
  }

  /** The value stored under `key` in an object. */
  function Get(j: Json, key: string): Option<Json> {
    match IndexOf(Members(j), key)
    case None => None
    case Some(i) => Some(Members(j)[i].val)
  }

  /**
   * One step of a helper lookup: the object stored under `key`; a missing
   * key or a value that is not an object gives the nil helper, modelled as `{}`.
   */
  function Child(j: Json, key: string): (h: Json)
    ensures h.JObj?
    ensures Len(h) > 0 ==> Get(j, key) == Some(h) && (j decreases to h)
    ensures Get(j, key).Some? && Get(j, key).value.JObj? ==> h == Get(j, key).value
    ensures !(Get(j, key).Some? && Get(j, key).value.JObj?) ==> h == JObj([])
  {
    match Get(j, key)
    case Some(JObj(ms)) => JObj(ms)
    case _ => JObj([])
  }

  /** `strings.Split(s, sep)` for a one-character separator. */
  function SplitOn(s: string, sep: char): (parts: seq<string>)
    ensures |parts| > 0
    decreases |s|
  {
    if |s| == 0 then [""]
    else
      var rest := SplitOn(s[1..], sep);
      if s[0] == sep then [""] + rest else [[s[0]] + rest[0]] + rest[1..]
  }

  /** `strings.Join(parts, sep)`. */
  function JoinOn(parts: seq<string>, sep: char): (s: string)
    requires |parts| > 0
  {
    if |parts| == 1 then parts[0] else parts[0] + [sep] + JoinOn(parts[1..], sep)
  }

  /** Splitting loses nothing: joining the parts back gives the string split. */
  lemma {:induction false} SplitJoin(s: string, sep: char)
    ensures JoinOn(SplitOn(s, sep), sep) == s
    decreases |s|
  {
    if |s| > 0 {
      SplitJoin(s[1..], sep);
      var rest := SplitOn(s[1..], sep);
      if s[0] == sep {
        assert s == [sep] + s[1..];
      } else if |rest| == 1 {
        assert s == [s[0]] + s[1..];
      } else {
        assert s == [s[0]] + s[1..];
        assert JoinOn(rest, sep) == rest[0] + [sep] + JoinOn(rest[1..], sep);
      }
    }
  }

  /** A string without the separator is one part; one with it splits there first. */
  lemma {:induction false} SplitAt(a: string, b: string, sep: char)
    requires !Has(a, sep)
    ensures SplitOn(a, sep) == [a]
    ensures SplitOn(a + [sep] + b, sep) == [a] + SplitOn(b, sep)
    decreases |a|
  {
    if |a| > 0 {
      SplitAt(a[1..], b, sep);
      assert (a + [sep] + b)[1..] == a[1..] + [sep] + b;
      assert [a[0]] + a[1..] == a;
    } else {
      assert a + [sep] + b == [sep] + b;
    }
  }

  /** `strings.Contains(s, string(c))`. */
  predicate Has(s: string, c: char)
    decreases |s|
  {
    |s| > 0 && (s[0] == c || Has(s[1..], c))
  }

  /** A character occurs in a concatenation exactly when it occurs in one of the parts. */
  lemma {:induction false} HasConcat(x: string, y: string, c: char)
    ensures Has(x + y, c) <==> Has(x, c) || Has(y, c)
    decreases |x|
  {
    if |x| > 0 {
      assert (x + y)[1..] == x[1..] + y;
      HasConcat(x[1..], y, c);
    } else {
      assert x + y == y;
    }
  }

  /** A key with no path separator: gou looks it up as it is. */
  predicate PlainKey(key: string)
  {
    !Has(key, '.') && !Has(key, '/')
  }

  /**
   * The segments gou makes of a helper key: the parts between '/' when the
   * key holds one (a leading '/' dropped), otherwise the parts between '.'.
   */
  function Path(key: string): (parts: seq<string>)
    ensures |parts| > 0
  {
    if Has(key, '/') then
      var parts := SplitOn(key, '/');
      if key[0] == '/' then parts[1..] else parts
    else SplitOn(key, '.')
  }

  /** A dotted pair of plain keys is two segments. */
  lemma DottedPair(a: string, b: string)
    requires PlainKey(a) && PlainKey(b)
    ensures Path(a + "." + b) == [a, b]
  {
    var key := a + "." + b;
    assert key == a + ['.'] + b;
    SplitAt(a, b, '.');
    SplitAt(b, "", '.');
    assert key == a + (['.'] + b);
    HasConcat(a, ['.'] + b, '/');
    HasConcat(['.'], b, '/');
  }

  /** A dotted pair of plain keys is looked up one key at a time. */
  lemma DottedPairHelper(j: Json, a: string, b: string)
    requires PlainKey(a) && PlainKey(b)
    ensures Helper(j, a + "." + b) == Child(Child(j, a), b)
  {
    DottedPair(a, b);
    assert [a, b][1..] == [b];
    assert Walk(j, [a, b]) == Walk(Child(j, a), [b]);
  }

  /** Follows the segments one object at a time. */
  function Walk(j: Json, parts: seq<string>): (h: Json)
    requires |parts| > 0
    ensures h.JObj?
    ensures Len(j) == 0 ==> h == JObj([])
    ensures Len(h) > 0 ==> (j decreases to h)
    decreases |parts|
  {
    var next := Child(j, parts[0]);
    if |parts| == 1 then next else Walk(next, parts[1..])
  }

  /**
   * `helper.Helper(key)`: the object found by following the key's path
   * segments; a missing segment, or a value along the way that is not an
   * object, gives the nil helper, modelled as `{}`.
   */
  function Helper(j: Json, key: string): (h: Json)
    ensures h.JObj?
    ensures Len(h) > 0 ==> (j decreases to h)
  {
    Walk(j, Path(key))
  }

  /** A plain key is a single lookup. */
  lemma PlainHelper(j: Json, key: string)
    requires PlainKey(key)
    ensures Helper(j, key) == Child(j, key)
  {
    SplitAt(key, "", '.');
  }

  /**
   * Iterating an object's members and looking each plain key up with
   * `Helper` agree: the lookup gives the member's value when it is an
   * object, and the nil helper otherwise.
   */
  lemma PlainMemberHelper(j: Json, i: nat)
    requires DistinctKeys(j) && i < Len(j) && PlainKey(Members(j)[i].key)
    ensures var v := Members(j)[i].val;
      Helper(j, Members(j)[i].key) == if v.JObj? then v else JObj([])
  {
    GetMember(j, i);
    PlainHelper(j, Members(j)[i].key);
  }

  /** A key whose first segment is not a key of the object finds nothing. */
  lemma MissingSegment(j: Json, key: string)
    requires Get(j, Path(key)[0]).None?
    ensures Helper(j, key) == JObj([])
  {
    var parts := Path(key);
    if |parts| > 1 {
      WalkEmpty(parts[1..]);
    }
  }

  /** Without a '/', a dotted key's first segment is the part before the first dot. */
  lemma DottedFirstSegment(a: string, b: string)
    requires PlainKey(a) && !Has(b, '/')
    ensures Path(a + "." + b)[0] == a
  {
    var key := a + "." + b;
    assert key == a + ['.'] + b && key == a + (['.'] + b);
    HasConcat(a, ['.'] + b, '/');
    HasConcat(['.'], b, '/');
    SplitAt(a, b, '.');
  }

  /** Joining two parts without '/' by a dot gives a key without '/'. */
  lemma SlashFreeDotted(a: string, b: string)
    requires !Has(a, '/') && !Has(b, '/')
    ensures !Has(a + "." + b, '/')
  {
    assert a + "." + b == a + (['.'] + b);
    HasConcat(a, ['.'] + b, '/');
    HasConcat(['.'], b, '/');
  }

  /**
   * A dotted key whose first segment is plain and missing finds nothing:
   * the lookup follows the segments instead of the key as written.
   */
  lemma DottedKeyMissing(j: Json, a: string, b: string)
    requires PlainKey(a) && !Has(b, '/') && Get(j, a).None?
    ensures Helper(j, a + "." + b) == JObj([])
  {
    DottedFirstSegment(a, b);
    MissingSegment(j, a + "." + b);
  }

  lemma WalkEmpty(parts: seq<string>)
    requires |parts| > 0
    ensures Walk(JObj([]), parts) == JObj([])
  {
  }

  /**
   * `helper.String(key)` for a plain key (the adapter reads only "type").
   * A string member gives its text; anything else gives "". (gou renders numbers and booleans as text, which never equals
   * one of the type tags the adapter tests, so the branch taken is the same.)
   */
  function Str(j: Json, key: string): (s: string)
    ensures s != "" ==> Get(j, key) == Some(JStr(s))
    ensures Get(j, key).Some? && Get(j, key).value.JStr? ==> s == Get(j, key).value.s
    ensures !(Get(j, key).Some? && Get(j, key).value.JStr?) ==> s == ""
  {
    match Get(j, key)
    case Some(JStr(s)) => s
    case _ => ""
  }
}
