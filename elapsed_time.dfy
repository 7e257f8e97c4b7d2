/** `formatElapsedTime` from utils.kt: a millisecond difference (a Kotlin
    Long) rendered as "just now" or "<count> <unit> ago", where the count is
    the truncated quotient by the unit's length. Months are 30 days, years
    365 days. The bucket is a value, `Elapsed(unit, count)`, and the text is
    a rendering of it; ParseElapsed reads the text back. */
module ElapsedTime {
  import opened Common
  import opened Text

  type Long = x: int | -0x8000_0000_0000_0000 <= x < 0x8000_0000_0000_0000

  datatype TimeUnit = JustNow | Secs | Min | Hours | Days | Months | Years

  datatype Elapsed = Elapsed(unit: TimeUnit, count: nat)

  const SecondMs: nat := 1_000
  const MinuteMs: nat := 60_000
  const HourMs: nat := 3_600_000
  const DayMs: nat := 86_400_000
  const MonthMs: nat := 2_592_000_000
  const YearMs: nat := 31_536_000_000

  /** Units in increasing order of size. */
  function Rank(u: TimeUnit): nat {
    match u
    case JustNow => 0
    case Secs => 1
    case Min => 2
    case Hours => 3
    case Days => 4
    case Months => 5
    case Years => 6
  }

  /** The length of one unit, in milliseconds (the divisor of its count). */
  function UnitMs(u: TimeUnit): nat
    requires u != JustNow
  {
    match u
    case Secs => SecondMs
    case Min => MinuteMs
    case Hours => HourMs
    case Days => DayMs
    case Months => MonthMs
    case Years => YearMs
  }

  /** The bucket `formatElapsedTime` picks: its seven `when` branches, tried in order. */
  function Bucket(diffInMillis: Long): (e: Elapsed)
    ensures e.unit == JustNow <==> diffInMillis < 0
    ensures e.unit == Secs <==> 0 <= diffInMillis < MinuteMs
    ensures e.unit == Min <==> MinuteMs <= diffInMillis < HourMs
    ensures e.unit == Hours <==> HourMs <= diffInMillis < DayMs
    ensures e.unit == Days <==> DayMs <= diffInMillis < MonthMs
    ensures e.unit == Months <==> MonthMs <= diffInMillis < YearMs
    ensures e.unit == Years <==> YearMs <= diffInMillis
    ensures e.unit == JustNow ==> e.count == 0
    ensures e.unit != JustNow ==> e.count == diffInMillis / UnitMs(e.unit)
    ensures e.unit == Secs ==> e.count <= 59
    ensures e.unit == Min ==> 1 <= e.count <= 59
    ensures e.unit == Hours ==> 1 <= e.count <= 23
    ensures e.unit == Days ==> 1 <= e.count <= 29
    ensures e.unit == Months ==> 1 <= e.count <= 12
    ensures e.unit == Years ==> 1 <= e.count
  {
    if diffInMillis < 0 then Elapsed(JustNow, 0)
    else if diffInMillis < 60_000 then Elapsed(Secs, diffInMillis / 1000)
    else if diffInMillis < 3_600_000 then Elapsed(Min, diffInMillis / 60_000)
    else if diffInMillis < 86_400_000 then Elapsed(Hours, diffInMillis / 3_600_000)
    else if diffInMillis < 2_592_000_000 then Elapsed(Days, diffInMillis / 86_400_000)
    else if diffInMillis < 31_536_000_000 then Elapsed(Months, diffInMillis / 2_592_000_000)
    else Elapsed(Years, diffInMillis / 31_536_000_000)
  }

  /** A longer difference never lands in a smaller unit, and within one unit
      never shows a smaller count. */
  lemma BucketMonotonic(d1: Long, d2: Long)
    requires d1 <= d2
    ensures Rank(Bucket(d1).unit) <= Rank(Bucket(d2).unit)
    ensures Bucket(d1).unit == Bucket(d2).unit ==> Bucket(d1).count <= Bucket(d2).count
  {
  }

  function Suffix(u: TimeUnit): string
    requires u != JustNow
  {
    match u
    case Secs => " secs ago"
    case Min => " min ago"
    case Hours => " hours ago"
    case Days => " days ago"
    case Months => " months ago"
    case Years => " years ago"
  }

  /** The text shown for a bucket: "just now", or a count that starts with a
      digit and a text that ends in " ago". */
  function Render(e: Elapsed): (s: string)
    ensures e.unit == JustNow ==> s == "just now"
    ensures e.unit != JustNow ==> |s| > 4 && IsDigit(s[0]) && s[|s| - 4..] == " ago"
  {
    if e.unit == JustNow then "just now" else DecimalString(e.count) + Suffix(e.unit)
  }

  /** `formatElapsedTime(diffInMillis)`: the text for each of the seven ranges. */
  function FormatElapsedTime(diffInMillis: Long): (s: string)
    ensures diffInMillis < 0 ==> s == "just now"
    ensures 0 <= diffInMillis < MinuteMs ==> s == DecimalString(diffInMillis / SecondMs) + " secs ago"
    ensures MinuteMs <= diffInMillis < HourMs ==> s == DecimalString(diffInMillis / MinuteMs) + " min ago"
    ensures HourMs <= diffInMillis < DayMs ==> s == DecimalString(diffInMillis / HourMs) + " hours ago"
    ensures DayMs <= diffInMillis < MonthMs ==> s == DecimalString(diffInMillis / DayMs) + " days ago"
    ensures MonthMs <= diffInMillis < YearMs ==> s == DecimalString(diffInMillis / MonthMs) + " months ago"
    ensures YearMs <= diffInMillis ==> s == DecimalString(diffInMillis / YearMs) + " years ago"
  {
    Render(Bucket(diffInMillis))
  }

  /** Reads the text back: the partner of Render. */
  function ParseElapsed(s: string): Option<Elapsed> {
    if s == "just now" then Some(Elapsed(JustNow, 0))
    else
      var k := DigitRun(s);
      if k == 0 then None
      else
        match UnitOfSuffix(s[k..])
        case None => None
        case Some(u) => Some(Elapsed(u, ParseDecimal(s[..k])))
  }

  /** The length of the run of digits that starts `s`. */
  function DigitRun(s: string): (k: nat)
    ensures k <= |s|
    ensures forall i :: 0 <= i < k ==> IsDigit(s[i])
  {
    if s == [] || !IsDigit(s[0]) then 0 else 1 + DigitRun(s[1..])
  }

  function UnitOfSuffix(s: string): Option<TimeUnit> {
    if s == " secs ago" then Some(Secs)
    else if s == " min ago" then Some(Min)
    else if s == " hours ago" then Some(Hours)
    else if s == " days ago" then Some(Days)
    else if s == " months ago" then Some(Months)
    else if s == " years ago" then Some(Years)
    else None
  }

  lemma {:induction false} DigitRunOfDigits(p: string, q: string)
    requires forall i :: 0 <= i < |p| ==> IsDigit(p[i])
    requires q != [] && !IsDigit(q[0])
    ensures DigitRun(p + q) == |p|
  {
    if p == [] {
      assert p + q == q;
    } else {
      assert (p + q)[1..] == p[1..] + q;
      DigitRunOfDigits(p[1..], q);
    }
  }

  /** Every bucket Bucket can produce reads back from its text. */
  lemma ParseRender(e: Elapsed)
    requires e.unit == JustNow ==> e.count == 0
    ensures ParseElapsed(Render(e)) == Some(e)
  {
    if e.unit != JustNow {
      var digits, suffix := DecimalString(e.count), Suffix(e.unit);
      var s := digits + suffix;
      assert s != "just now" by {
        assert IsDigit(s[0]);
      }
      DigitRunOfDigits(digits, suffix);
      assert s[..|digits|] == digits;
      assert s[|digits|..] == suffix;
      ParseDecimalString(e.count);
    }
  }

  /** The shown text determines the bucket: no two buckets print alike. */
  lemma FormatElapsedTimeReadsBack(diffInMillis: Long)
    ensures ParseElapsed(FormatElapsedTime(diffInMillis)) == Some(Bucket(diffInMillis))
  {
    ParseRender(Bucket(diffInMillis));
  }
}
