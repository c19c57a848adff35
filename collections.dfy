/** The array operations the source takes from JavaScript and Effect:
    `find`/`findFirst`, `filter`, `map`, and occurrence counting. */
module Collections {
  import opened Wrappers

  /** `Array.findFirst` by index: the first position whose element satisfies `p`. */
  function FindIndex<T>(s: seq<T>, p: T -> bool): (r: Option<nat>)
    ensures r.Some? ==> r.value < |s| && p(s[r.value])
    ensures r.Some? ==> forall j :: 0 <= j < r.value ==> !p(s[j])
    ensures r.None? <==> forall j :: 0 <= j < |s| ==> !p(s[j])
    decreases |s|
  {
    if s == [] then None
    else if p(s[0]) then Some(0)
    else match FindIndex(s[1..], p)
      case None => None
      case Some(i) => Some(i + 1)
  }

  /** JavaScript's `find`: the first element satisfying `p`, if any. */
  function Find<T>(s: seq<T>, p: T -> bool): (r: Option<T>)
    ensures r.None? <==> forall j :: 0 <= j < |s| ==> !p(s[j])
    ensures r.Some? ==> exists i :: 0 <= i < |s| && s[i] == r.value && p(s[i])
                                   && forall j :: 0 <= j < i ==> !p(s[j])
  {
    match FindIndex(s, p)
    case None => None
    case Some(i) => Some(s[i])
  }

  /** JavaScript's `filter`. */
  function Filter<T>(s: seq<T>, p: T -> bool): (r: seq<T>)
    ensures |r| <= |s|
    ensures forall i :: 0 <= i < |r| ==> r[i] in s && p(r[i])
    ensures forall i :: 0 <= i < |s| && p(s[i]) ==> s[i] in r
    ensures IsSubsequence(r, s)
    decreases |s|
  {
    if s == [] then []
    else if p(s[0]) then [s[0]] + Filter(s[1..], p)
    else Filter(s[1..], p)
  }

  /** `a` is `b` with some elements removed and the rest kept in order. */
  ghost predicate IsSubsequence<T>(a: seq<T>, b: seq<T>)
    decreases |b|
  {
    if a == [] then true
    else if b == [] then false
    else if a[0] == b[0] then IsSubsequence(a[1..], b[1..])
    else IsSubsequence(a, b[1..])
  }

  /** JavaScript's `map`. */
  function Map<T, U>(s: seq<T>, f: T -> U): (r: seq<U>)
    ensures |r| == |s| && forall i :: 0 <= i < |s| ==> r[i] == f(s[i])
  {
    seq(|s|, i requires 0 <= i < |s| => f(s[i]))
  }

  /** How many times `x` occurs in `s`. */
  function Occ<T(==)>(s: seq<T>, x: T): nat
    decreases |s|
  {
    if s == [] then 0 else Occ(s[..|s| - 1], x) + (if s[|s| - 1] == x then 1 else 0)
  }

  lemma OccSnoc<T>(s: seq<T>, y: T, x: T)
    ensures Occ(s + [y], x) == Occ(s, x) + (if y == x then 1 else 0)
  {
    assert (s + [y])[..|s|] == s;
  }

  /** A prefix never holds more occurrences than a longer prefix; one more
      occurrence of `x` lies between them when the longer one ends past an
      `x` the shorter one does not reach. */
  lemma {:induction false} OccPrefixGrows<T>(s: seq<T>, i: nat, j: nat)
    requires i < j <= |s|
    ensures Occ(s[..j], s[i]) >= Occ(s[..i], s[i]) + 1
    decreases j - i
  {
    if j == i + 1 {
      OccSnoc(s[..i], s[i], s[i]);
      assert s[..i] + [s[i]] == s[..i + 1];
    } else {
      OccPrefixGrows(s, i, j - 1);
      OccSnoc(s[..j - 1], s[j - 1], s[i]);
      assert s[..j - 1] + [s[j - 1]] == s[..j];
    }
  }

  /** A value that does not occur counts zero. */
  lemma {:induction false} OccAbsent<T>(s: seq<T>, x: T)
    requires x !in s
    ensures Occ(s, x) == 0
    decreases |s|
  {
    if s != [] {
      OccAbsent(s[..|s| - 1], x);
    }
  }

  /** Growing a slice by one element appends that element. */
  lemma SliceSnoc<T>(s: seq<T>, b: nat, i: nat)
    requires b + i < |s|
    ensures s[b..b + i + 1] == s[b..b + i] + [s[b + i]]
    ensures s[..b + i + 1] == s[..b + i] + [s[b + i]]
  {
  }

  lemma SliceAll<T>(s: seq<T>)
    ensures s[..|s|] == s && s[0..|s|] == s
  {
  }

  /** Dropping an element from the front of the longer sequence keeps a
      subsequence a subsequence. */
  lemma {:induction false} SubsequenceOfTail<T>(a: seq<T>, b: seq<T>)
    requires b != [] && IsSubsequence(a, b[1..])
    ensures IsSubsequence(a, b)
    decreases |b|, 0
  {
    if a != [] && a[0] == b[0] {
      SubsequenceDropHead(a, b[1..]);
    }
  }

  /** Dropping the first element of a subsequence keeps it a subsequence. */
  lemma {:induction false} SubsequenceDropHead<T>(a: seq<T>, c: seq<T>)
    requires a != [] && IsSubsequence(a, c)
    ensures IsSubsequence(a[1..], c)
    decreases |c|, 1
  {
    if a[0] == c[0] {
      if c[1..] != [] || a[1..] == [] {
        if a[1..] != [] {
          SubsequenceOfTail(a[1..], c);
        }
      }
    } else {
      SubsequenceDropHead(a, c[1..]);
      SubsequenceOfTail(a[1..], c);
    }
  }

  /** A non-empty sequence has a member: its first element. */
  lemma FirstIsMember<T>(s: seq<T>)
    ensures s != [] ==> s[0] in s
  {
  }

  /** Occurrences in a concatenation add up. */
  lemma {:induction false} OccConcat<T>(a: seq<T>, b: seq<T>, x: T)
    ensures Occ(a + b, x) == Occ(a, x) + Occ(b, x)
    decreases |b|
  {
    if b == [] {
      assert a + b == a;
    } else {
      var c := b[..|b| - 1];
      OccConcat(a, c, x);
      assert (a + b)[..|a + b| - 1] == a + c;
      assert (a + b)[|a + b| - 1] == b[|b| - 1];
      assert Occ(b, x) == Occ(c, x) + (if b[|b| - 1] == x then 1 else 0);
    }
  }

  /** A subsequence of a subsequence is a subsequence. */
  lemma {:induction false} SubsequenceTrans<T>(a: seq<T>, b: seq<T>, c: seq<T>)
    requires IsSubsequence(a, b) && IsSubsequence(b, c)
    ensures IsSubsequence(a, c)
    decreases |c|
  {
    if a != [] {
      if b[0] == c[0] {
        if a[0] == b[0] {
          SubsequenceTrans(a[1..], b[1..], c[1..]);
        } else {
          SubsequenceTrans(a, b[1..], c[1..]);
          SubsequenceOfTail(a, c);
        }
      } else {
        SubsequenceTrans(a, b, c[1..]);
        SubsequenceOfTail(a, c);
      }
    }
  }

  /** Every sequence is a subsequence of itself. */
  lemma {:induction false} SubsequenceRefl<T>(s: seq<T>)
    ensures IsSubsequence(s, s)
    decreases |s|
  {
    if s != [] {
      SubsequenceRefl(s[1..]);
    }
  }

  /** One run of two sequences merged, elements taken from the front of
      either: `picks[k]` says whether the k-th step takes from `a`; once
      `picks` runs out, `a` goes first. */
  function Interleave<T>(a: seq<T>, b: seq<T>, picks: seq<bool>): (r: seq<T>)
    ensures |r| == |a| + |b|
    ensures multiset(r) == multiset(a) + multiset(b)
    decreases |a| + |b|
  {
    if a == [] then b
    else if b == [] then a
    else if picks == [] || picks[0] then
      assert a == [a[0]] + a[1..];
      [a[0]] + Interleave(a[1..], b, if picks == [] then [] else picks[1..])
    else
      assert b == [b[0]] + b[1..];
      [b[0]] + Interleave(a, b[1..], picks[1..])
  }

  /** Merging keeps the order of each side. */
  lemma {:induction false} InterleaveKeepsOrder<T>(a: seq<T>, b: seq<T>, picks: seq<bool>)
    ensures IsSubsequence(a, Interleave(a, b, picks))
    ensures IsSubsequence(b, Interleave(a, b, picks))
    decreases |a| + |b|
  {
    var r := Interleave(a, b, picks);
    if a == [] {
      SubsequenceRefl(b);
    } else if b == [] {
      SubsequenceRefl(a);
    } else if picks == [] || picks[0] {
      var rest := if picks == [] then [] else picks[1..];
      InterleaveKeepsOrder(a[1..], b, rest);
      assert r[1..] == Interleave(a[1..], b, rest);
      SubsequenceOfTail(b, r);
    } else {
      InterleaveKeepsOrder(a, b[1..], picks[1..]);
      assert r[1..] == Interleave(a, b[1..], picks[1..]);
      SubsequenceOfTail(a, r);
    }
  }

  /** Concatenation is associative. */
  lemma AppendAssoc<T>(a: seq<T>, b: seq<T>, c: seq<T>)
    ensures a + (b + c) == (a + b) + c
  {
  }
}
