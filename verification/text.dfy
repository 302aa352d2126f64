/**
 * The two string operations of the Go standard library the adapter relies
 * on: `strings.ToLower` and `sort.Strings`.
 */
module Text {

  /** ASCII lower-casing of one character. */
  function LowerChar(c: char): (l: char)
    ensures 'A' <= c <= 'Z' ==> l as int == c as int + 32
    ensures !('A' <= c <= 'Z') ==> l == c
  {
    if 'A' <= c <= 'Z' then (c as int + 32) as char else c
  }

  /** `strings.ToLower`, restricted to ASCII letters. */
  function ToLower(s: string): (r: string)
    ensures |r| == |s|
    ensures forall i :: 0 <= i < |s| ==> r[i] == LowerChar(s[i])
  {
    if s == [] then [] else [LowerChar(s[0])] + ToLower(s[1..])
  }

  /** Lower-casing an already lower-cased name changes nothing. */
  lemma ToLowerIdempotent(s: string)
    ensures ToLower(ToLower(s)) == ToLower(s)
  {
    var once := ToLower(s);
    assert forall i :: 0 <= i < |once| ==> !('A' <= once[i] <= 'Z');
  }

  /**
   * Go's string order: byte-wise lexicographic on the UTF-8 encoding, which
   * orders strings as code-point-wise lexicographic order does.
   */
  predicate LessEq(a: string, b: string) {
    a == [] || (b != [] && (a[0] < b[0] || (a[0] == b[0] && LessEq(a[1..], b[1..]))))
  }

  lemma {:induction false} LessEqTotal(a: string, b: string)
    ensures LessEq(a, b) || LessEq(b, a)
  {
    if a != [] && b != [] && a[0] == b[0] {
      LessEqTotal(a[1..], b[1..]);
    }
  }

  lemma {:induction false} LessEqTransitive(a: string, b: string, c: string)
    requires LessEq(a, b) && LessEq(b, c)
    ensures LessEq(a, c)
  {
    if a != [] && a[0] == b[0] && b[0] == c[0] {
      LessEqTransitive(a[1..], b[1..], c[1..]);
    }
  }

  lemma {:induction false} LessEqAntisymmetric(a: string, b: string)
    requires LessEq(a, b) && LessEq(b, a)
    ensures a == b
  {
    if a != [] {
      LessEqAntisymmetric(a[1..], b[1..]);
      assert a == [a[0]] + a[1..] && b == [b[0]] + b[1..];
    }
  }

  /** Ascending in Go's string order. */
  predicate Sorted(s: seq<string>) {
    forall i :: 0 < i < |s| ==> LessEq(s[i - 1], s[i])
  }

  /** Any two elements of a sorted sequence are in order, not only neighbours. */
  lemma {:induction false} SortedPairwise(s: seq<string>, i: nat, j: nat)
    requires Sorted(s) && i <= j < |s|
    ensures LessEq(s[i], s[j])
    decreases j - i
  {
    if i == j {
      LessEqReflexive(s[i]);
    } else {
      SortedPairwise(s, i, j - 1);
      LessEqTransitive(s[i], s[j - 1], s[j]);
    }
  }

  lemma {:induction false} LessEqReflexive(a: string)
    ensures LessEq(a, a)
  {
    if a != [] {
      LessEqReflexive(a[1..]);
    }
  }

  /** Insert `x` into a sorted sequence. */
  function Insert(x: string, s: seq<string>): (r: seq<string>)
    requires Sorted(s)
    ensures Sorted(r)
    ensures multiset(r) == multiset(s) + multiset{x}
    ensures |r| > 0 && (r[0] == x || (s != [] && r[0] == s[0]))
  {
    if s == [] then [x]
    else if LessEq(x, s[0]) then [x] + s
    else
      LessEqTotal(x, s[0]);
      var rest := Insert(x, s[1..]);
      assert s == [s[0]] + s[1..];
      [s[0]] + rest
  }

  /** `sort.Strings`: an ascending permutation of its input. */
  function SortStrings(s: seq<string>): (r: seq<string>)
    ensures Sorted(r)
    ensures multiset(r) == multiset(s)
  {
    if s == [] then []
    else
      assert s == [s[0]] + s[1..];
      Insert(s[0], SortStrings(s[1..]))
  }

  lemma SortedTail(s: seq<string>)
    requires Sorted(s) && s != []
    ensures Sorted(s[1..])
  {
    forall i | 0 < i < |s| - 1 ensures LessEq(s[1..][i - 1], s[1..][i]) {
      assert s[1..][i - 1] == s[i] && s[1..][i] == s[i + 1];
    }
  }

  /** The first element of a non-empty sorted sequence is below every element. */
  lemma HeadIsLeast(s: seq<string>, x: string)
    requires Sorted(s) && x in multiset(s)
    ensures LessEq(s[0], x)
  {
    var i :| 0 <= i < |s| && s[i] == x;
    SortedPairwise(s, 0, i);
  }

  /** A sorted permutation is unique, so the order `sort.Strings` produces is fully determined. */
  lemma {:induction false} SortedPermutationUnique(a: seq<string>, b: seq<string>)
    requires Sorted(a) && Sorted(b) && multiset(a) == multiset(b)
    ensures a == b
    decreases |a|
  {
    if a == [] {
      assert |multiset(b)| == 0;
    } else {
      assert b != [] by { assert a[0] in multiset(b); }
      HeadIsLeast(a, b[0]);
      HeadIsLeast(b, a[0]);
      LessEqAntisymmetric(a[0], b[0]);
      assert a == [a[0]] + a[1..];
      assert b == [b[0]] + b[1..];
      assert multiset(a) == multiset{a[0]} + multiset(a[1..]);
      assert multiset(b) == multiset{b[0]} + multiset(b[1..]);
      assert a[0] == b[0];
      assert multiset(a[1..]) == multiset(a) - multiset{a[0]};
      assert multiset(b[1..]) == multiset(b) - multiset{b[0]};
      SortedTail(a);
      SortedTail(b);
      SortedPermutationUnique(a[1..], b[1..]);
    }
  }
}
