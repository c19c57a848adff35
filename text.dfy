/** String helpers the source gets from JavaScript: number-to-string for
    non-negative integers, `padStart`, `join`, and lower-casing. */
module Text {
  import opened Wrappers


  predicate IsDigit(c: char) {
    '0' <= c <= '9'
  }

  predicate AllDigits(s: string) {
    forall i :: 0 <= i < |s| ==> IsDigit(s[i])
  }

  function DigitChar(d: nat): (c: char)
    requires d < 10
    ensures IsDigit(c)
  {
    (48 + d) as char
  }

  function DigitValue(c: char): (d: nat)
    requires IsDigit(c)
    ensures d < 10 && DigitChar(d) == c
  {
    c as int - 48
  }

  /** Decimal rendering of a non-negative integer, as JavaScript prints it:
      no sign, no leading zero except for zero itself. */
  function NatToString(n: nat): (s: string)
    ensures |s| >= 1 && AllDigits(s)
    ensures (s[0] == '0') <==> n == 0
    decreases n
  {
    if n < 10 then [DigitChar(n)] else NatToString(n / 10) + [DigitChar(n % 10)]
  }

  function Pow10(k: nat): (r: nat)
    ensures r >= 1
  {
    if k == 0 then 1 else 10 * Pow10(k - 1)
  }

  /** A number below `10^k` prints in at most `k` digits. */
  lemma {:induction false} NatToStringLength(n: nat, k: nat)
    requires k >= 1 && n < Pow10(k)
    ensures |NatToString(n)| <= k
    decreases k
  {
    if n >= 10 {
      assert k >= 2;
      NatToStringLength(n / 10, k - 1);
    }
  }

  /** Reads a string of digits back as a number; leading zeros are allowed. */
  function ParseNat(s: string): nat
    requires AllDigits(s)
    decreases |s|
  {
    if s == [] then 0 else ParseNat(s[..|s| - 1]) * 10 + DigitValue(s[|s| - 1])
  }

  lemma ParseNatSnoc(s: string, c: char)
    requires AllDigits(s) && IsDigit(c)
    ensures AllDigits(s + [c]) && ParseNat(s + [c]) == ParseNat(s) * 10 + DigitValue(c)
  {
    assert (s + [c])[..|s|] == s;
  }

  /** Printing a number and reading it back gives the number. */
  lemma {:induction false} NatToStringRoundTrip(n: nat)
    ensures ParseNat(NatToString(n)) == n
    decreases n
  {
    if n >= 10 {
      NatToStringRoundTrip(n / 10);
      ParseNatSnoc(NatToString(n / 10), DigitChar(n % 10));
    }
  }

  lemma NatToStringInjective(a: nat, b: nat)
    requires NatToString(a) == NatToString(b)
    ensures a == b
  {
    NatToStringRoundTrip(a);
    NatToStringRoundTrip(b);
  }

  function Repeat(c: char, k: nat): (s: string)
    ensures |s| == k && forall i :: 0 <= i < k ==> s[i] == c
  {
    seq(k, _ => c)
  }

  /** JavaScript's `s.padStart(width, c)` for a one-character pad. */
  function PadStart(s: string, width: nat, c: char): (r: string)
    ensures |r| == if |s| >= width then |s| else width
    ensures r[|r| - |s|..] == s
    ensures forall i :: 0 <= i < |r| - |s| ==> r[i] == c
  {
    if |s| >= width then s else Repeat(c, width - |s|) + s
  }

  lemma {:induction false} ParseNatZeros(k: nat)
    ensures AllDigits(Repeat('0', k)) && ParseNat(Repeat('0', k)) == 0
    decreases k
  {
    if k > 0 {
      ParseNatZeros(k - 1);
      assert Repeat('0', k)[..k - 1] == Repeat('0', k - 1);
    }
  }

  /** Leading zeros do not change the value read. */
  lemma {:induction false} ParseNatLeadingZeros(k: nat, s: string)
    requires AllDigits(s)
    ensures AllDigits(Repeat('0', k) + s)
    ensures ParseNat(Repeat('0', k) + s) == ParseNat(s)
    decreases |s|
  {
    var z := Repeat('0', k);
    if s == [] {
      assert z + s == z;
      ParseNatZeros(k);
    } else {
      ParseNatLeadingZeros(k, s[..|s| - 1]);
      assert (z + s)[..|z + s| - 1] == z + s[..|s| - 1];
    }
  }

  /** Zero-padding a string of digits keeps it digits of the same value. */
  lemma PaddedParse(s: string, width: nat)
    requires AllDigits(s)
    ensures AllDigits(PadStart(s, width, '0')) && ParseNat(PadStart(s, width, '0')) == ParseNat(s)
  {
    if |s| < width {
      ParseNatLeadingZeros(width - |s|, s);
    }
  }

  /** A zero-padded number reads back as that number, whatever the width. */
  lemma PaddedRoundTrip(n: nat, width: nat)
    ensures AllDigits(PadStart(NatToString(n), width, '0'))
    ensures ParseNat(PadStart(NatToString(n), width, '0')) == n
  {
    NatToStringRoundTrip(n);
    PaddedParse(NatToString(n), width);
  }

  /** JavaScript's `n.toString()` for an integer. */
  function IntToString(i: int): (s: string)
    ensures |s| >= 1
    ensures s[0] == '-' <==> i < 0
    ensures i >= 0 ==> s == NatToString(i)
  {
    if i < 0 then "-" + NatToString(-i) else NatToString(i)
  }

  /** JavaScript's `parts.join(sep)`. */
  function Join(parts: seq<string>, sep: string): (r: string)
    ensures parts == [] ==> r == ""
    ensures |parts| == 1 ==> r == parts[0]
  {
    if parts == [] then ""
    else if |parts| == 1 then parts[0]
    else parts[0] + sep + Join(parts[1..], sep)
  }

  /** Lower-casing of one character; only the ASCII letters change. */
  function LowerChar(c: char): char {
    if 'A' <= c <= 'Z' then (c as int + 32) as char else c
  }

  /** JavaScript's `s.toLowerCase()`, restricted to ASCII letters. */
  function ToLower(s: string): (r: string)
    ensures |r| == |s| && forall i :: 0 <= i < |s| ==> r[i] == LowerChar(s[i])
  {
    seq(|s|, i requires 0 <= i < |s| => LowerChar(s[i]))
  }

  /** The pieces of a concatenation of six sit one after another. */
  lemma ConcatSlices<T>(a: seq<T>, b: seq<T>, c: seq<T>, d: seq<T>, e: seq<T>, f: seq<T>)
    ensures var s := a + b + c + d + e + f;
      var i1, i2, i3 := |a|, |a| + |b|, |a| + |b| + |c|;
      var i4, i5 := i3 + |d|, i3 + |d| + |e|;
      && |s| == i5 + |f|
      && s[..i1] == a && s[i1..i2] == b && s[i2..i3] == c
      && s[i3..i4] == d && s[i4..i5] == e && s[i5..] == f
  {
  }

  /** `sep` occurs in `s` starting at index `i`. */
  predicate OccursAt(s: string, sep: string, i: nat) {
    i + |sep| <= |s| && s[i..i + |sep|] == sep
  }

  /** `s.indexOf(sep, from)`: the first index at or after `from` where `sep`
      occurs, if any. */
  function IndexOf(s: string, sep: string, from: nat): (r: Option<nat>)
    ensures r.Some? ==> from <= r.value && OccursAt(s, sep, r.value)
    ensures r.Some? ==> forall j :: from <= j < r.value ==> !OccursAt(s, sep, j)
    ensures r.None? ==> forall j :: from <= j ==> !OccursAt(s, sep, j)
    decreases |s| - from
  {
    if from + |sep| > |s| then None
    else if s[from..from + |sep|] == sep then Some(from)
    else IndexOf(s, sep, from + 1)
  }

  /** `p` is `rest` up to the first occurrence of `sep`, or all of `rest`
      when `sep` does not occur in it. */
  ghost predicate FirstPiece(rest: string, sep: string, p: string) {
    && |p| <= |rest| && rest[..|p|] == p
    && (forall j :: 0 <= j < |p| ==> !OccursAt(rest, sep, j))
    && (|p| == |rest| || OccursAt(rest, sep, |p|))
  }

  /** The first occurrence of `sep` in `s` is at `i`, and `p` is the text
      after it up to the next occurrence or the end. */
  ghost predicate SecondPieceAt(s: string, sep: string, i: nat, p: string) {
    && OccursAt(s, sep, i)
    && (forall j :: 0 <= j < i ==> !OccursAt(s, sep, j))
    && FirstPiece(s[i + |sep|..], sep, p)
  }

  /** `s.split(sep)[1]`: the text between the first occurrence of `sep` and
      the next one (or the end); `undefined` when `sep` does not occur. */
  function SecondPiece(s: string, sep: string): (r: Option<string>)
    requires sep != ""
    ensures r.None? <==> forall j :: !OccursAt(s, sep, j)
    ensures r.Some? ==> exists i: nat :: SecondPieceAt(s, sep, i, r.value)
  {
    match IndexOf(s, sep, 0)
    case None => None
    case Some(i) =>
      var rest := s[i + |sep|..];
      IndexOfFirstPiece(rest, sep);
      match IndexOf(rest, sep, 0)
      case None =>
        assert SecondPieceAt(s, sep, i, rest);
        Some(rest)
      case Some(j) =>
        assert SecondPieceAt(s, sep, i, rest[..j]);
        Some(rest[..j])
  }

  /** The first piece of `rest` ends where `IndexOf` finds `sep`. */
  lemma IndexOfFirstPiece(rest: string, sep: string)
    ensures IndexOf(rest, sep, 0).None? ==> FirstPiece(rest, sep, rest)
    ensures IndexOf(rest, sep, 0).Some? ==> FirstPiece(rest, sep, rest[..IndexOf(rest, sep, 0).value])
  {
  }

  /** Splitting `sep + path` at `sep` gives back `path` when `sep` does not
      occur in it. */
  lemma SecondPieceAfterPrefix(sep: string, path: string)
    requires sep != ""
    requires forall j :: !OccursAt(path, sep, j)
    ensures SecondPiece(sep + path, sep) == Some(path)
  {
    var s := sep + path;
    assert OccursAt(s, sep, 0);
    assert s[|sep|..] == path;
    assert IndexOf(path, sep, 0).None?;
  }

  /** A number below `10^width` zero-padded to `width` is `width` digits that
      read back as the number. */
  lemma PaddedField(n: nat, width: nat)
    requires width >= 1 && n < Pow10(width)
    ensures var f := PadStart(NatToString(n), width, '0');
      |f| == width && AllDigits(f) && ParseNat(f) == n
  {
    NatToStringLength(n, width);
    PaddedRoundTrip(n, width);
  }

  /** Where the fields of `y ++ m ++ d` sit. */
  lemma FieldSlices(y: string, m: string, d: string)
    requires |y| == 4 && |m| == 2 && |d| == 2
    ensures var s := y + m + d;
      |s| == 8 && s[..4] == y && s[4..6] == m && s[6..] == d
  {
  }

  /** Where the fields of `y-m-d` sit. */
  lemma DashedFieldSlices(y: string, m: string, d: string)
    requires |y| == 4 && |m| == 2 && |d| == 2
    ensures var s := y + "-" + m + "-" + d;
      |s| == 10 && s[4] == '-' && s[7] == '-' && s[..4] == y && s[5..7] == m && s[8..] == d
  {
  }

  /** The text before the last dash and the dash-free text after it are
      determined by the whole. */
  lemma LastDashSplits(p1: string, a: string, p2: string, b: string)
    requires p1 + "-" + a == p2 + "-" + b
    requires forall i :: 0 <= i < |a| ==> a[i] != '-'
    requires forall i :: 0 <= i < |b| ==> b[i] != '-'
    ensures p1 == p2 && a == b
  {
    var s := p1 + "-" + a;
    assert forall i :: |s| - |a| <= i < |s| ==> s[i] == a[i - (|s| - |a|)];
    assert forall i :: |s| - |b| <= i < |s| ==> s[i] == b[i - (|s| - |b|)];
    assert s[|s| - |a| - 1] == '-' && s[|s| - |b| - 1] == '-';
    assert a == s[|s| - |a|..] == b;
    assert p1 == s[..|s| - |a| - 1] == p2;
  }
}
