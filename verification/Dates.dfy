/** Calendar dates and their ISO text, which the import preview compares as strings. */
module Dates {

  datatype RawDate = RawDate(year: int, month: int, day: int)

  predicate LeapYear(y: int) {
    y % 4 == 0 && (y % 100 != 0 || y % 400 == 0)
  }

  function DaysIn(y: int, m: int): int {
    if m in {4, 6, 9, 11} then 30
    else if m == 2 then (if LeapYear(y) then 29 else 28)
    else 31
  }

  type Date = d: RawDate | 1 <= d.year <= 9999 && 1 <= d.month <= 12 && 1 <= d.day <= DaysIn(d.year, d.month)
    witness RawDate(2000, 1, 1)

  predicate Le(a: Date, b: Date) {
    a.year < b.year || (a.year == b.year && (a.month < b.month || (a.month == b.month && a.day <= b.day)))
  }

  /** `a.start <= b.end and a.end >= b.start` */
  predicate Overlap(start: Date, end: Date, start2: Date, end2: Date) {
    Le(start, end2) && Le(start2, end)
  }

  // ----- ISO text ---------------------------------------------------------------

  function Digit(k: int): char
    requires 0 <= k < 10
  {
    ('0' as int + k) as char
  }

  function TwoDigits(k: int): string
    requires 0 <= k < 100
  {
    [Digit(k / 10), Digit(k % 10)]
  }

  /** `date.isoformat()`: YYYY-MM-DD. */
  function Iso(d: Date): string {
    TwoDigits(d.year / 100) + (TwoDigits(d.year % 100) + ("-" + (TwoDigits(d.month) + ("-" + (TwoDigits(d.day) + "")))))
  }

  /** `<=` on strings: lexicographic by code point. */
  predicate TextLe(s: string, t: string) {
    s == "" || (t != "" && (s[0] < t[0] || (s[0] == t[0] && TextLe(s[1..], t[1..]))))
  }

  lemma SameHead(c: char, u: string, v: string)
    ensures TextLe([c] + u, [c] + v) <==> TextLe(u, v)
  {
    assert ([c] + u)[1..] == u && ([c] + v)[1..] == v;
  }

  lemma TwoDigitsOrder(a: int, b: int, u: string, v: string)
    requires 0 <= a < 100 && 0 <= b < 100
    ensures TextLe(TwoDigits(a) + u, TwoDigits(b) + v) <==> a < b || (a == b && TextLe(u, v))
  {
    var s := TwoDigits(a) + u;
    var t := TwoDigits(b) + v;
    assert s[1..][1..] == u && t[1..][1..] == v;
    assert s[0] == Digit(a / 10) && s[1..][0] == Digit(a % 10);
    assert t[0] == Digit(b / 10) && t[1..][0] == Digit(b % 10);
  }

  lemma MonthDayOrder(a: Date, b: Date)
    ensures TextLe("-" + (TwoDigits(a.month) + ("-" + (TwoDigits(a.day) + ""))),
                   "-" + (TwoDigits(b.month) + ("-" + (TwoDigits(b.day) + "")))) <==>
            a.month < b.month || (a.month == b.month && a.day <= b.day)
  {
    var da, db := TwoDigits(a.day) + "", TwoDigits(b.day) + "";
    TwoDigitsOrder(a.day, b.day, "", "");
    SameHead('-', da, db);
    TwoDigitsOrder(a.month, b.month, "-" + da, "-" + db);
    SameHead('-', TwoDigits(a.month) + ("-" + da), TwoDigits(b.month) + ("-" + db));
  }

  /** ISO texts compare exactly as the dates they denote. */
  lemma IsoOrder(a: Date, b: Date)
    ensures TextLe(Iso(a), Iso(b)) <==> Le(a, b)
  {
    var ra := "-" + (TwoDigits(a.month) + ("-" + (TwoDigits(a.day) + "")));
    var rb := "-" + (TwoDigits(b.month) + ("-" + (TwoDigits(b.day) + "")));
    MonthDayOrder(a, b);
    TwoDigitsOrder(a.year % 100, b.year % 100, ra, rb);
    TwoDigitsOrder(a.year / 100, b.year / 100, TwoDigits(a.year % 100) + ra, TwoDigits(b.year % 100) + rb);
  }
}
