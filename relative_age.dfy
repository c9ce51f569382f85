/** The "Created N <unit> ago" text that the users table shows for a
    creation timestamp (getDateDifference in src/pages/users.js).
    Times are integer milliseconds; the current time is a parameter. */
module RelativeAge {
  import Decimal
  import opened Api

  datatype Unit = Minutes | Hours | Days | Months | Years
  datatype Age = Age(count: nat, unit: Unit)

  /** JavaScript's Math.floor(a / b) for a positive divisor b; Dafny's
      division on int is Euclidean, which agrees with it when b > 0. */
  function FloorDiv(a: int, b: int): int
    requires b > 0
  {
    a / b
  }

  /** The branch-by-branch computation of getDateDifference: floor divisions
      of the elapsed time, each checked against a fixed threshold before the
      next one is taken. A month is 30 days and a year 12 months. */
  function DateDifference(now: Millis, timestamp: Millis): Age
  {
    var diff := FloorDiv(now - timestamp, 1000);
    var diffMin := FloorDiv(diff, 60);
    if diffMin < 60 then
      Age(if diffMin < 0 then 0 else diffMin, Minutes)
    else
      var diffHour := FloorDiv(diffMin, 60);
      if diffHour < 60 then Age(diffHour, Hours)
      else
        var diffDay := FloorDiv(diffHour, 24);
        if diffDay < 30 then Age(diffDay, Days)
        else
          var diffMonth := FloorDiv(diffDay, 30);
          if diffMonth < 12 then Age(diffMonth, Months)
          else Age(FloorDiv(diffMonth, 12), Years)
  }

  function UnitWord(u: Unit): string {
    match u
    case Minutes => "minutes"
    case Hours => "hours"
    case Days => "days"
    case Months => "months"
    case Years => "years"
  }

  function Message(a: Age): string {
    "Created " + Decimal.NatToString(a.count) + " " + UnitWord(a.unit) + " ago"
  }

  /** getDateDifference(timestamp) evaluated at time `now`. */
  function GetDateDifference(now: Millis, timestamp: Millis): string {
    Message(DateDifference(now, timestamp))
  }

  // ---------------------------------------------------------------------
  // Properties of getDateDifference, stated on the elapsed time alone

  /** Which branch getDateDifference takes, and the count it reports, in
      terms of the elapsed milliseconds d = now - timestamp: every count is a
      single floor division of d, and each unit covers a fixed range. */
  lemma DateDifferenceByElapsed(now: Millis, timestamp: Millis)
    ensures var a, d := DateDifference(now, timestamp), now - timestamp;
      && (a.unit == Minutes <==> d < 3_600_000)
      && (a.unit == Hours <==> 3_600_000 <= d < 216_000_000)
      && (a.unit == Days <==> 216_000_000 <= d < 2_592_000_000)
      && (a.unit == Months <==> 2_592_000_000 <= d < 31_104_000_000)
      && (a.unit == Years <==> 31_104_000_000 <= d)
      && (a.unit == Minutes ==> a.count == if d < 0 then 0 else d / 60_000)
      && (a.unit == Hours ==> a.count == d / 3_600_000)
      && (a.unit == Days ==> a.count == d / 86_400_000)
      && (a.unit == Months ==> a.count == d / 2_592_000_000)
      && (a.unit == Years ==> a.count == d / 31_104_000_000)
  {

  }

  /** The ranges of the counts: minutes in [0, 59], hours in [1, 59], days in
      [2, 29], months in [1, 11], years at least 1. In particular the hours
      branch goes on up to 59 hours and never reports 12 or more months. */
  lemma DateDifferenceRanges(now: Millis, timestamp: Millis)
    ensures var a := DateDifference(now, timestamp);
      && (a.unit == Minutes ==> 0 <= a.count <= 59)
      && (a.unit == Hours ==> 1 <= a.count <= 59)
      && (a.unit == Days ==> 2 <= a.count <= 29)
      && (a.unit == Months ==> 1 <= a.count <= 11)
      && (a.unit == Years ==> 1 <= a.count)
  {

  }

  /** A timestamp in the future reads as "Created 0 minutes ago". */
  lemma FutureIsZeroMinutes(now: Millis, timestamp: Millis)
    requires timestamp > now
    ensures GetDateDifference(now, timestamp) == "Created 0 minutes ago"
  {

  }

  // ---------------------------------------------------------------------
  // Reading a message back

  /** The number of decimal digits at the front of s. */
  function LeadingDigits(s: string): (k: nat)
    ensures k <= |s| && Decimal.AllDigits(s[..k])
    ensures k < |s| ==> !Decimal.IsDigit(s[k])
  {
    if s != [] && Decimal.IsDigit(s[0]) then
      var k := 1 + LeadingDigits(s[1..]);
      assert s[..k] == [s[0]] + s[1..][..k - 1];
      k
    else 0
  }

  function UnitOfWord(w: string): Option<Unit> {
    if w == "minutes" then Some(Minutes)
    else if w == "hours" then Some(Hours)
    else if w == "days" then Some(Days)
    else if w == "months" then Some(Months)
    else if w == "years" then Some(Years)
    else None
  }

  /** Recovers count and unit from the "N <unit>" middle of a message. */
  function ParseCountAndUnit(m: string): Option<Age> {
    var k := LeadingDigits(m);
    if k == 0 || k == |m| || m[k] != ' ' then None
    else match UnitOfWord(m[k + 1..])
      case None => None
      case Some(u) => Some(Age(Decimal.ParseDecimal(m[..k]), u))
  }

  /** Recovers count and unit from a "Created N <unit> ago" text. */
  function ParseMessage(s: string): Option<Age> {
    if |s| < 12 || s[..8] != "Created " || s[|s| - 4..] != " ago" then None
    else ParseCountAndUnit(s[8..|s| - 4])
  }

  lemma {:induction false} LeadingDigitsOfNumber(ds: string, rest: string)
    requires Decimal.AllDigits(ds)
    requires rest != [] && !Decimal.IsDigit(rest[0])
    ensures LeadingDigits(ds + rest) == |ds|
  {
    if ds != [] {
      assert (ds + rest)[1..] == ds[1..] + rest;
      LeadingDigitsOfNumber(ds[1..], rest);
    } else {
      assert ds + rest == rest;
    }
  }

  lemma UnitOfWordRoundTrip(u: Unit)
    ensures UnitOfWord(UnitWord(u)) == Some(u)
  {
  }

  lemma CountAndUnitRoundTrip(a: Age)
    ensures ParseCountAndUnit(Decimal.NatToString(a.count) + " " + UnitWord(a.unit)) == Some(a)
  {
    var ds := Decimal.NatToString(a.count);
    var w := UnitWord(a.unit);
    var m := ds + " " + w;
    assert ds + (" " + w) == m;
    LeadingDigitsOfNumber(ds, " " + w);
    assert m[..|ds|] == ds;
    assert m[|ds| + 1..] == w;
    UnitOfWordRoundTrip(a.unit);
    Decimal.ParseNatToString(a.count);
  }

  lemma SlicesOfConcat(a: string, m: string, b: string)
    ensures var s := a + m + b;
      && s[..|a|] == a && s[|s| - |b|..] == b && s[|a|..|s| - |b|] == m
  {
  }

  /** The message determines the age it was written from. */
  lemma MessageRoundTrip(a: Age)
    ensures ParseMessage(Message(a)) == Some(a)
  {
    var m := Decimal.NatToString(a.count) + " " + UnitWord(a.unit);
    assert Message(a) == "Created " + m + " ago";
    SlicesOfConcat("Created ", m, " ago");
    CountAndUnitRoundTrip(a);
  }

  /** Two different ages never produce the same text. */
  lemma MessageInjective(a: Age, b: Age)
    requires Message(a) == Message(b)
    ensures a == b
  {
    MessageRoundTrip(a);
    MessageRoundTrip(b);
  }

  // ---------------------------------------------------------------------
  // Worked cases, as the code computes them

  lemma ThirtySecondsAgo()
    ensures GetDateDifference(30_000, 0) == "Created 0 minutes ago"
  {
  }

  lemma NinetyMinutesAgo()
    ensures GetDateDifference(5_400_000, 0) == "Created 1 hours ago"
  {
  }

  /** 50 hours stays in the hours branch. */
  lemma FiftyHoursAgo()
    ensures GetDateDifference(180_000_000, 0) == "Created 50 hours ago"
  {
  }

  /** 400 days is 13 thirty-day months, so it falls into the years branch. */
  lemma FourHundredDaysAgo()
    ensures GetDateDifference(34_560_000_000, 0) == "Created 1 years ago"
  {
  }

  lemma EightHundredDaysAgo()
    ensures GetDateDifference(69_120_000_000, 0) == "Created 2 years ago"
  {
  }
}
