/** The provider-independent bank abstraction: the normalized transaction every
    provider produces and the error a provider reports (src/Bank.ts). */
module Bank {
  import opened Wrappers
  import opened Text
  import opened Decimals

  /** JavaScript truthiness of an optional string: present and non-empty. */
  predicate Truthy(o: Option<string>) {
    o.Some? && o.value != ""
  }

  /** Thirty days in milliseconds: how far back the Up and Akahu exports
      look back from now. */
  const ThirtyDays: int := 30 * 24 * 60 * 60 * 1000

  /** A calendar date as its parts. */
  datatype Date = Date(year: nat, month: nat, day: nat)

  /** Calendar order of dates. */
  predicate DateBefore(a: Date, b: Date) {
    a.year < b.year
    || (a.year == b.year && a.month < b.month)
    || (a.year == b.year && a.month == b.month && a.day < b.day)
  }

  /** `DateTime.formatIsoDate`: `YYYY-MM-DD` for the date's parts. */
  function IsoDate(d: Date): string {
    PadStart(NatToString(d.year), 4, '0') + "-"
    + PadStart(NatToString(d.month), 2, '0') + "-"
    + PadStart(NatToString(d.day), 2, '0')
  }

  /** For years below 10000 the ISO date is ten characters with the dashes at
      positions 4 and 7, and each field reads back as the date's part. */
  lemma IsoDateShape(d: Date)
    requires d.year < 10000 && d.month < 100 && d.day < 100
    ensures var s := IsoDate(d);
      && |s| == 10 && s[4] == '-' && s[7] == '-'
      && AllDigits(s[..4]) && ParseNat(s[..4]) == d.year
      && AllDigits(s[5..7]) && ParseNat(s[5..7]) == d.month
      && AllDigits(s[8..]) && ParseNat(s[8..]) == d.day
  {
    assert Pow10(2) == 100 && Pow10(4) == 10000;
    PaddedField(d.year, 4);
    PaddedField(d.month, 2);
    PaddedField(d.day, 2);
    DashedFieldSlices(PadStart(NatToString(d.year), 4, '0'), PadStart(NatToString(d.month), 2, '0'),
                      PadStart(NatToString(d.day), 2, '0'));
  }

  /** A point in time (milliseconds since the epoch) seen in a named time
      zone, together with the calendar date it falls on in that zone. */
  datatype DateTime = DateTime(instant: int, zone: string, date: Date)

  /** A named zone and its calendar: the date each instant falls on there.
      The calendar comes from the time-zone database and is not modelled. */
  datatype TimeZone = TimeZone(name: string, dateAt: int -> Date)

  /** `DateTime.setZone`: the same instant, seen in another zone. */
  function SetZone(instant: int, zone: TimeZone): DateTime {
    DateTime(instant, zone.name, zone.dateAt(instant))
  }

  /** `AccountTransaction`: one transaction as a provider reports it. The
      source's interface leaves out `category` and `transfer`, which the Up
      provider sets and the sync reads. */
  datatype AccountTransaction = AccountTransaction(
    dateTime: DateTime,
    amount: Decimal,
    payee: string,
    notes: Option<string>,
    cleared: bool,
    category: Option<string>,
    transfer: Option<string>)

  datatype ErrorReason = AccountNotFound | Unauthorized | Unknown

  /** `BankError`: why a provider could not export an account. The wrapped
      cause is kept as text. */
  datatype BankError = BankError(reason: ErrorReason, bank: string, cause: Option<string>)
}
