/** Calendar dates (`java.time.LocalDate`): their order and the "dd/MM/yyyy" rendering used in sheet cells. */
module Dates {
  import opened Wrappers
  import opened Digits

  type Month = m: int | 1 <= m <= 12 witness 1
  type DayOfMonth = d: int | 1 <= d <= 31 witness 1

  datatype Date = Date(year: int, month: Month, day: DayOfMonth)

  /** `LocalDate.compareTo`: by year, then month, then day. */
  predicate DateBefore(a: Date, b: Date) {
    a.year < b.year
    || (a.year == b.year && a.month < b.month)
    || (a.year == b.year && a.month == b.month && a.day < b.day)
  }

  /** Day ordinal used as the sort key for dates. */
  function DateKey(d: Date): int {
    (d.year * 12 + (d.month - 1)) * 31 + (d.day - 1)
  }

  /** Comparing keys is comparing dates: the key is order-preserving and injective. */
  lemma DateKeyOrder(a: Date, b: Date)
    ensures DateKey(a) < DateKey(b) <==> DateBefore(a, b)
    ensures DateKey(a) == DateKey(b) <==> a == b
  {
    var ma, mb := a.year * 12 + (a.month - 1), b.year * 12 + (b.month - 1);
    assert ma < mb <==> (a.year < b.year || (a.year == b.year && a.month < b.month));
  }

  /** Year of era: 1 for 1 CE, 1 for 1 BCE (proleptic year 0), 2 for year -1, ... */
  function YearOfEra(year: int): (e: nat)
    ensures e >= 1
    ensures year >= 1 ==> e == year
  {
    if year >= 1 then year else 1 - year
  }

  /** "yyyy": the year of era padded to four digits, with a '+' sign once it needs more than four. */
  function YearText(year: int): string {
    var e := YearOfEra(year);
    if e > 9999 then "+" + NatToString(e) else PadLeft(NatToString(e), 4)
  }

  /** `DateTimeFormatter.ofPattern("dd/MM/yyyy").format(d)`. */
  function FormatDate(d: Date): string {
    PadLeft(NatToString(d.day), 2) + "/" + PadLeft(NatToString(d.month), 2) + "/" + YearText(d.year)
  }

  /** Reads "dd/MM/yyyy" back; None when the text is not of that shape or a field is out of range. */
  function ParseDate(s: string): Option<Date> {
    if |s| == 10 && s[2] == '/' && s[5] == '/'
       && AllDigits(s[..2]) && AllDigits(s[3..5]) && AllDigits(s[6..])
    then
      var day, month, year := ParseDigits(s[..2]), ParseDigits(s[3..5]), ParseDigits(s[6..]);
      if 1 <= day <= 31 && 1 <= month <= 12 then Some(Date(year, month, day)) else None
    else None
  }

  lemma {:induction false} PadFieldRoundTrip(n: nat, width: nat)
    requires 1 <= width && n < Pow10(width)
    ensures |PadLeft(NatToString(n), width)| == width
    ensures AllDigits(PadLeft(NatToString(n), width))
    ensures ParseDigits(PadLeft(NatToString(n), width)) == n
  {
    NatToStringLength(n, width);
    ParsePadLeft(NatToString(n), width);
    ParseNatToString(n);
  }

  lemma ParseFields(dd: string, mm: string, yy: string, d: Date)
    requires |dd| == 2 && |mm| == 2 && |yy| == 4
    requires AllDigits(dd) && AllDigits(mm) && AllDigits(yy)
    requires ParseDigits(dd) == d.day && ParseDigits(mm) == d.month && ParseDigits(yy) == d.year
    ensures ParseDate(dd + "/" + mm + "/" + yy) == Some(d)
  {
    var s := dd + "/" + mm + "/" + yy;
    assert s[..2] == dd && s[2] == '/' && s[3..5] == mm && s[5] == '/' && s[6..] == yy;
  }

  lemma FormatDateFields(d: Date)
    requires 1 <= d.year <= 9999
    ensures FormatDate(d) == PadLeft(NatToString(d.day), 2) + "/" + PadLeft(NatToString(d.month), 2) + "/" + PadLeft(NatToString(d.year), 4)
  {
  }

  /** For the years of the common era up to 9999 the rendering is ten characters long and reads back to the same date. */
  lemma FormatDateRoundTrip(d: Date)
    requires 1 <= d.year <= 9999
    ensures |FormatDate(d)| == 10
    ensures ParseDate(FormatDate(d)) == Some(d)
  {
    assert Pow10(2) == 100 && Pow10(4) == 10000;
    PadFieldRoundTrip(d.day, 2);
    PadFieldRoundTrip(d.month, 2);
    PadFieldRoundTrip(d.year, 4);
    FormatDateFields(d);
    ParseFields(PadLeft(NatToString(d.day), 2), PadLeft(NatToString(d.month), 2), PadLeft(NatToString(d.year), 4), d);
  }

  /** Two common-era dates up to year 9999 never print the same. */
  lemma FormatDateInjective(a: Date, b: Date)
    requires 1 <= a.year <= 9999 && 1 <= b.year <= 9999
    requires FormatDate(a) == FormatDate(b)
    ensures a == b
  {
    FormatDateRoundTrip(a);
    FormatDateRoundTrip(b);
  }
}
