/** Import ids (`makeImportId` in src/Sync.ts): every transaction of a run is
    keyed by its date and amount, and numbered among the transactions of the
    run with the same key. */
module ImportIds {
  import opened Wrappers
  import opened Text
  import opened Decimals
  import opened Collections
  import opened Bank

  /** The date part of an import id: year padded to four digits, month and
      day to two. */
  function DateString(d: Date): string {
    PadStart(NatToString(d.year), 4, '0')
    + PadStart(NatToString(d.month), 2, '0')
    + PadStart(NatToString(d.day), 2, '0')
  }

  /** For years below 10000 the date part is eight characters that read back
      as the year, month and day. */
  lemma DateStringRoundTrip(d: Date)
    requires d.year < 10000 && d.month < 100 && d.day < 100
    ensures var s := DateString(d);
      && |s| == 8
      && AllDigits(s[..4]) && ParseNat(s[..4]) == d.year
      && AllDigits(s[4..6]) && ParseNat(s[4..6]) == d.month
      && AllDigits(s[6..]) && ParseNat(s[6..]) == d.day
  {
    assert Pow10(2) == 100 && Pow10(4) == 10000;
    PaddedField(d.year, 4);
    PaddedField(d.month, 2);
    PaddedField(d.day, 2);
    FieldSlices(PadStart(NatToString(d.year), 4, '0'), PadStart(NatToString(d.month), 2, '0'),
                PadStart(NatToString(d.day), 2, '0'));
  }

  /** The counter key of a transaction: its date followed by the text of
      `amountToInt(amount)`, the amount times 100. */
  function Prefix(t: AccountTransaction): string {
    DateString(t.dateTime.date) + NumberText(Times100(t.amount))
  }

  /** For years below 10000 a prefix is eight digits that read back as the
      transaction's year, month and day, followed by the amount in cents as
      JavaScript prints it; so two transactions share a prefix only when they
      fall on the same day and print the same amount. */
  lemma PrefixReadsBack(t: AccountTransaction, u: AccountTransaction)
    requires t.dateTime.date.year < 10000 && t.dateTime.date.month < 100 && t.dateTime.date.day < 100
    requires u.dateTime.date.year < 10000 && u.dateTime.date.month < 100 && u.dateTime.date.day < 100
    ensures var p := Prefix(t);
      && |p| >= 8
      && AllDigits(p[..4]) && ParseNat(p[..4]) == t.dateTime.date.year
      && AllDigits(p[4..6]) && ParseNat(p[4..6]) == t.dateTime.date.month
      && AllDigits(p[6..8]) && ParseNat(p[6..8]) == t.dateTime.date.day
      && p[8..] == NumberText(Times100(t.amount))
    ensures Prefix(t) == Prefix(u) <==>
      t.dateTime.date == u.dateTime.date && NumberText(Times100(t.amount)) == NumberText(Times100(u.amount))
  {
    var d, e := t.dateTime.date, u.dateTime.date;
    DateStringRoundTrip(d);
    DateStringRoundTrip(e);
    EightThenRest(DateString(d), NumberText(Times100(t.amount)), DateString(e), NumberText(Times100(u.amount)));
    if DateString(d) == DateString(e) {
      assert d.year == e.year && d.month == e.month && d.day == e.day;
    }
  }

  /** Eight characters followed by more text: the slices of the whole, and
      when two such texts are equal. */
  lemma EightThenRest(a: string, x: string, b: string, y: string)
    requires |a| == 8 && |b| == 8
    ensures (a + x)[..4] == a[..4] && (a + x)[4..6] == a[4..6] && (a + x)[6..8] == a[6..] && (a + x)[8..] == x
    ensures a + x == b + y <==> a == b && x == y
  {
    if a + x == b + y {
      assert a == (a + x)[..8] == (b + y)[..8] == b;
      assert x == (a + x)[8..] == (b + y)[8..] == y;
    }
  }

  /** The prefixes of transactions, in order. */
  function Prefixes(txs: seq<AccountTransaction>): (ps: seq<string>)
    ensures |ps| == |txs|
  {
    seq(|txs|, i requires 0 <= i < |txs| => Prefix(txs[i]))
  }

  /** The id handed out for the `n`-th transaction with this prefix. */
  function ImportId(prefix: string, n: nat): string {
    prefix + "-" + NatToString(n)
  }

  /** Different (prefix, occurrence) pairs never share an id: the occurrence
      number holds no dash, so the last dash of an id splits it uniquely. */
  lemma ImportIdInjective(p1: string, n1: nat, p2: string, n2: nat)
    requires ImportId(p1, n1) == ImportId(p2, n2)
    ensures p1 == p2 && n1 == n2
  {
    var a, b := NatToString(n1), NatToString(n2);
    assert forall i :: 0 <= i < |a| ==> IsDigit(a[i]);
    assert forall i :: 0 <= i < |b| ==> IsDigit(b[i]);
    LastDashSplits(p1, a, p2, b);
    NatToStringInjective(n1, n2);
  }

  /** What the counter map holds for a prefix; an unseen prefix counts 0. */
  function Count(counters: map<string, nat>, p: string): nat {
    if p in counters then counters[p] else 0
  }

  /** The ids of a run whose transactions, in processing order, have the
      prefixes `ps`: the k-th transaction with a given prefix gets `-k`. */
  function KthIds(ps: seq<string>): (ids: seq<string>)
    ensures |ids| == |ps|
  {
    seq(|ps|, i requires 0 <= i < |ps| => KthId(ps, i))
  }

  /** The id of the `i`-th transaction: its prefix numbered by how many
      transactions before it share that prefix, plus one. */
  function KthId(ps: seq<string>, i: nat): string
    requires i < |ps|
  {
    ImportId(ps[i], Occ(ps[..i], ps[i]) + 1)
  }

  /** The id at position `i`, by `KthId`'s definition. */
  lemma KthIdAt(ps: seq<string>, i: nat) returns (id: string)
    requires i < |ps|
    ensures id == KthIds(ps)[i]
    ensures id == ImportId(ps[i], Occ(ps[..i], ps[i]) + 1)
  {
    id := KthIds(ps)[i];
  }

  /** The id of the `i`-th of the prefixes `ps` that follow `before`: its
      count takes in the occurrences in `before` and those earlier in `ps`. */
  lemma KthIdAfter(before: seq<string>, ps: seq<string>, i: nat) returns (id: string)
    requires i < |ps|
    ensures id == KthIds(before + ps)[|before| + i]
    ensures id == ImportId(ps[i], Occ(before, ps[i]) + Occ(ps[..i], ps[i]) + 1)
  {
    var all := before + ps;
    assert all[|before| + i] == ps[i];
    assert all[..|before| + i] == before + ps[..i];
    OccConcat(before, ps[..i], ps[i]);
    id := KthIdAt(all, |before| + i);
  }

  /** No two transactions of a run get the same id. */
  lemma KthIdsDistinct(ps: seq<string>)
    ensures forall i, j :: 0 <= i < j < |ps| ==> KthIds(ps)[i] != KthIds(ps)[j]
  {
    var ids := KthIds(ps);
    forall i, j | 0 <= i < j < |ps|
      ensures ids[i] != ids[j]
    {
      if ids[i] == ids[j] {
        ImportIdInjective(ps[i], Occ(ps[..i], ps[i]) + 1, ps[j], Occ(ps[..j], ps[j]) + 1);
        OccPrefixGrows(ps, i, j);
        assert false;
      }
    }
  }

  /** The first transaction with a prefix gets the id ending in `-1`. */
  lemma FirstOccurrenceEndsInOne(ps: seq<string>, i: nat)
    requires i < |ps| && ps[i] !in ps[..i]
    ensures KthIds(ps)[i] == ps[i] + "-1"
  {
    OccAbsent(ps[..i], ps[i]);
  }

  /** Appending transactions leaves the ids of the earlier ones unchanged. */
  lemma KthIdsAppend(ps: seq<string>, qs: seq<string>)
    ensures KthIds(ps + qs)[..|ps|] == KthIds(ps)
  {
    forall i | 0 <= i < |ps|
      ensures KthIds(ps + qs)[i] == KthIds(ps)[i]
    {
      assert (ps + qs)[..i] == ps[..i];
    }
  }

  /** The id generator of `makeImportId`: one map from prefix to the number of
      ids handed out for it so far. */
  class ImportIdCounter {
    var counters: map<string, nat>

    constructor ()
      ensures counters == map[]
    {
      counters := map[];
    }

    /** Hands out the next id for a prefix (`Prefix` of the transaction) and
        bumps its count. */
    method Next(prefix: string) returns (id: string)
      modifies this
      ensures counters == old(counters)[prefix := Count(old(counters), prefix) + 1]
      ensures id == ImportId(prefix, Count(old(counters), prefix) + 1)
    {
      var count := if prefix in counters then counters[prefix] + 1 else 1;
      counters := counters[prefix := count];
      id := prefix + "-" + NatToString(count);
    }
  }

  lemma ConcatAt(before: seq<string>, ps: seq<string>, i: nat)
    requires i < |ps|
    ensures (before + ps)[|before| + i] == ps[i]
    ensures Occ((before + ps)[..|before| + i], ps[i]) == Occ(before + ps[..i], ps[i])
  {
    assert (before + ps)[..|before| + i] == before + ps[..i];
  }

  lemma OccExtend(before: seq<string>, ps: seq<string>, i: nat)
    requires i < |ps|
    ensures forall p :: Occ(before + ps[..i + 1], p) == Occ(before + ps[..i], p) + (if ps[i] == p then 1 else 0)
  {
    assert before + ps[..i + 1] == (before + ps[..i]) + [ps[i]];
    forall p
      ensures Occ(before + ps[..i + 1], p) == Occ(before + ps[..i], p) + (if ps[i] == p then 1 else 0)
    {
      OccSnoc(before + ps[..i], ps[i], p);
    }
  }

  /** One step of the counter: with counts matching the prefixes seen so far,
      the id handed out for the next transaction is the run's `KthIds` entry,
      and the bumped counts match the prefixes seen one step later. */
  lemma CounterStep(c: map<string, nat>, next: map<string, nat>, before: seq<string>, ps: seq<string>, i: nat, key: string)
    returns (id: string)
    requires i < |ps| && ps[i] == key
    requires forall p :: Count(c, p) == Occ(before + ps[..i], p)
    requires next == c[key := Count(c, key) + 1]
    ensures id == KthIds(before + ps)[|before| + i]
    ensures id == ImportId(key, Count(c, key) + 1)
    ensures forall p :: Count(next, p) == Occ(before + ps[..i + 1], p)
  {
    var s, k := before + ps, |before| + i;
    ConcatAt(before, ps, i);
    OccExtend(before, ps, i);
    var p1, n1 := s[k], Occ(s[..k], s[k]) + 1;
    assert p1 == key && n1 == Count(c, key) + 1;
    id := KthIds(s)[k];
    assert id == ImportId(p1, n1);
    forall p
      ensures Count(next, p) == Occ(before + ps[..i + 1], p)
    {
      assert Count(next, p) == Count(c, p) + (if key == p then 1 else 0);
    }
  }
}
