/**
  Timestamps as the report reads and writes them: the API's
  `YYYY-MM-DDTHH:MM:SS.ffffffZ` text (`strptime` with
  "%Y-%m-%dT%H:%M:%S.%fZ"), the `YYYY-MM-DD` filter dates ("%Y-%m-%d"), and the
  unpadded `M/D/YYYY H:M` display text of the report's date columns.
 */
module Timestamps {
  import opened Wrappers
  import opened Text

  /** The fields of a parsed date and time that the report uses. */
  datatype Timestamp = Timestamp(year: nat, month: nat, day: nat, hour: nat, minute: nat)

  predicate LeapYear(y: nat) {
    y % 4 == 0 && (y % 100 != 0 || y % 400 == 0)
  }

  function DaysInMonth(y: nat, m: nat): (d: nat)
    requires 1 <= m <= 12
    ensures 28 <= d <= 31
  {
    if m == 2 then (if LeapYear(y) then 29 else 28)
    else if m == 4 || m == 6 || m == 9 || m == 11 then 30
    else 31
  }

  /** A calendar date that Python's `datetime` accepts. */
  predicate ValidDate(y: nat, m: nat, d: nat) {
    1 <= y <= 9999 && 1 <= m <= 12 && 1 <= d <= DaysInMonth(y, m)
  }

  predicate ValidTimestamp(t: Timestamp) {
    ValidDate(t.year, t.month, t.day) && t.hour <= 23 && t.minute <= 59
  }

  /** The fixed punctuation and digit positions of `YYYY-MM-DDTHH:MM:SS.f…fZ`. */
  predicate IsoLayout(s: string) {
    22 <= |s| <= 27 &&
    AllDigits(s[0..4]) && s[4] == '-' && AllDigits(s[5..7]) && s[7] == '-' && AllDigits(s[8..10]) &&
    s[10] == 'T' && AllDigits(s[11..13]) && s[13] == ':' && AllDigits(s[14..16]) && s[16] == ':' &&
    AllDigits(s[17..19]) && s[19] == '.' && AllDigits(s[20..|s| - 1]) && s[|s| - 1] == 'Z'
  }

  /**
    The API timestamp parser: the layout above with one to six fraction digits,
    a real calendar date, hour up to 23, minute and second up to 59.
   */
  function ParseTimestamp(s: string): (r: Option<Timestamp>)
    ensures r.Some? ==> IsoLayout(s) && ValidTimestamp(r.value)
    ensures r.Some? ==> r.value.year == DigitsValue(s[0..4]) && r.value.month == DigitsValue(s[5..7])
    ensures r.Some? ==> r.value.day == DigitsValue(s[8..10])
    ensures r.Some? ==> r.value.hour == DigitsValue(s[11..13]) && r.value.minute == DigitsValue(s[14..16])
  {
    if IsoLayout(s) then
      var t := Timestamp(DigitsValue(s[0..4]), DigitsValue(s[5..7]), DigitsValue(s[8..10]),
                         DigitsValue(s[11..13]), DigitsValue(s[14..16]));
      if ValidTimestamp(t) && DigitsValue(s[17..19]) <= 59 then Some(t) else None
    else None
  }

  /**
    `strptime`'s `%m` at the start of `s`: the first of the alternatives
    `1[0-2]`, `0[1-9]` and `[1-9]` that matches, as its value and width.
   */
  function MonthField(s: string): (r: Option<(nat, nat)>)
    ensures r.Some? ==> 1 <= r.value.1 <= 2 && r.value.1 <= |s| && 1 <= r.value.0 <= 12
  {
    if |s| >= 2 && s[0] == '1' && '0' <= s[1] <= '2' then Some((10 + DigitValue(s[1]), 2))
    else if |s| >= 2 && s[0] == '0' && '1' <= s[1] <= '9' then Some((DigitValue(s[1]), 2))
    else if |s| >= 1 && '1' <= s[0] <= '9' then Some((DigitValue(s[0]), 1))
    else None
  }

  /**
    `strptime`'s `%d` at the start of `s`: the first of the alternatives
    `3[01]`, `[12][0-9]`, `0[1-9]`, `[1-9]` and ` [1-9]` that matches.
   */
  function DayField(s: string): (r: Option<(nat, nat)>)
    ensures r.Some? ==> 1 <= r.value.1 <= 2 && r.value.1 <= |s| && 1 <= r.value.0 <= 31
  {
    if |s| >= 2 && s[0] == '3' && '0' <= s[1] <= '1' then Some((30 + DigitValue(s[1]), 2))
    else if |s| >= 2 && '1' <= s[0] <= '2' && IsDigit(s[1]) then Some((10 * DigitValue(s[0]) + DigitValue(s[1]), 2))
    else if |s| >= 2 && s[0] == '0' && '1' <= s[1] <= '9' then Some((DigitValue(s[1]), 2))
    else if |s| >= 1 && '1' <= s[0] <= '9' then Some((DigitValue(s[0]), 1))
    else if |s| >= 2 && s[0] == ' ' && '1' <= s[1] <= '9' then Some((DigitValue(s[1]), 2))
    else None
  }

  /**
    The filter-date parser (`strptime` with "%Y-%m-%d"): four year digits, a
    dash, the month field, a dash and the day field, with nothing left over,
    naming a real date. The time of day is midnight.
   */
  function ParseDate(s: string): (r: Option<Timestamp>)
    ensures r.Some? ==> ValidTimestamp(r.value) && r.value.hour == 0 && r.value.minute == 0
    ensures r.Some? ==> 8 <= |s| <= 10 && AllDigits(s[..4]) && s[4] == '-' && r.value.year == DigitsValue(s[..4])
    ensures r.Some? ==> MonthField(s[5..]).Some? && r.value.month == MonthField(s[5..]).value.0
    ensures r.Some? ==>
      var rest := s[5 + MonthField(s[5..]).value.1..];
      |rest| >= 2 && rest[0] == '-' && DayField(rest[1..]).Some? &&
      DayField(rest[1..]).value.1 == |rest| - 1 && r.value.day == DayField(rest[1..]).value.0
  {
    if |s| < 5 || !AllDigits(s[..4]) || s[4] != '-' then None
    else
      var month :- MonthField(s[5..]);
      var rest := s[5 + month.1..];
      if rest == [] || rest[0] != '-' then None
      else
        var day :- DayField(rest[1..]);
        if day.1 != |rest| - 1 then None
        else
          var t := Timestamp(DigitsValue(s[..4]), month.0, day.0, 0, 0);
          if ValidTimestamp(t) then Some(t) else None
  }

  /** The API's own rendering of a timestamp, with the given seconds and microseconds. */
  function IsoText(t: Timestamp, second: nat, micros: nat): string {
    Pad(t.year, 4) + "-" + Pad(t.month, 2) + "-" + Pad(t.day, 2) + "T" +
    Pad(t.hour, 2) + ":" + Pad(t.minute, 2) + ":" + Pad(second, 2) + "." + Pad(micros, 6) + "Z"
  }

  function DateText(t: Timestamp): string {
    Pad(t.year, 4) + "-" + Pad(t.month, 2) + "-" + Pad(t.day, 2)
  }

  /** Every valid timestamp the API renders is read back exactly. */
  lemma ParseIsoText(t: Timestamp, second: nat, micros: nat)
    requires ValidTimestamp(t) && second <= 59 && micros < 1000000
    ensures ParseTimestamp(IsoText(t, second, micros)) == Some(t)
  {
    var s := IsoText(t, second, micros);
    assert s[0..4] == Pad(t.year, 4);
    assert s[5..7] == Pad(t.month, 2);
    assert s[8..10] == Pad(t.day, 2);
    assert s[11..13] == Pad(t.hour, 2);
    assert s[14..16] == Pad(t.minute, 2);
    assert s[17..19] == Pad(second, 2);
    assert s[20..|s| - 1] == Pad(micros, 6);
    PadValue(t.year, 4);
    PadValue(t.month, 2);
    PadValue(t.day, 2);
    PadValue(t.hour, 2);
    PadValue(t.minute, 2);
    PadValue(second, 2);
  }

  lemma PadTwo(n: nat)
    requires n < 100
    ensures Pad(n, 2) == [DigitChar(n / 10), DigitChar(n % 10)]
  {
    var q := n / 10;
    assert q < 10 && q % 10 == q;
    assert Pad(q, 1) == Pad(q / 10, 0) + [DigitChar(q % 10)] == [DigitChar(q)];
  }

  /** A zero-padded month reads back through the month field. */
  lemma MonthFieldPadded(m: nat, rest: string)
    requires 1 <= m <= 12
    ensures MonthField(Pad(m, 2) + rest) == Some((m, 2))
  {
    PadTwo(m);
  }

  /** A zero-padded day reads back through the day field. */
  lemma DayFieldPadded(d: nat)
    requires 1 <= d <= 31
    ensures DayField(Pad(d, 2)) == Some((d, 2))
  {
    PadTwo(d);
  }

  /** Every valid date written as YYYY-MM-DD passes the filter-date parser. */
  lemma ParseDateText(t: Timestamp)
    requires ValidTimestamp(t) && t.hour == 0 && t.minute == 0
    ensures ParseDate(DateText(t)) == Some(t)
  {
    var s := DateText(t);
    assert s[..4] == Pad(t.year, 4);
    PadValue(t.year, 4);
    assert s[5..] == Pad(t.month, 2) + "-" + Pad(t.day, 2);
    MonthFieldPadded(t.month, "-" + Pad(t.day, 2));
    assert s[7..] == "-" + Pad(t.day, 2);
    assert s[7..][1..] == Pad(t.day, 2);
    DayFieldPadded(t.day);
  }

  /** One-digit months and days are accepted too, as `strptime` accepts them. */
  lemma ParseDateShortFields()
    ensures ParseDate("2023-1-5") == Some(Timestamp(2023, 1, 5, 0, 0))
    ensures ParseDate("2023-01- 5") == Some(Timestamp(2023, 1, 5, 0, 0))
    ensures ParseDate("2023-13-01") == None
  {
    assert "2023-1-5"[..4] == "2023";
    assert DigitsValue("2023") == 2023 by {
      assert "2023"[..3] == "202" && "202"[..2] == "20" && "20"[..1] == "2" && "2"[..0] == "";
    }
    assert "2023-1-5"[5..] == "1-5";
    assert "1-5"[1..] == "-5" && "-5"[1..] == "5";
    assert "2023-01- 5"[..4] == "2023";
    assert "2023-01- 5"[5..] == "01- 5";
    assert "01- 5"[2..] == "- 5" && "- 5"[1..] == " 5";
    assert "2023-13-01"[5..] == "13-01";
    assert "13-01"[1..] == "3-01";
  }

  /** The report's display text: "{month}/{day}/{year} {hour}:{minute}", nothing padded. */
  function Format(t: Timestamp): string {
    NatToString(t.month) + "/" + NatToString(t.day) + "/" + NatToString(t.year) + " " +
    NatToString(t.hour) + ":" + NatToString(t.minute)
  }

  /** The leading number of `s` and what follows it. */
  function SplitNumber(s: string): (nat, string) {
    var k := DigitRun(s);
    (DigitsValue(s[..k]), s[k..])
  }

  /** The leading number of `s`, provided the separator `sep` follows it, and what follows `sep`. */
  function ReadField(s: string, sep: char): Option<(nat, string)> {
    var (n, rest) := SplitNumber(s);
    if rest == [] || rest[0] != sep then None else Some((n, rest[1..]))
  }

  /** Reads a display text back: five numbers separated by '/', '/', ' ' and ':'. */
  function Unformat(s: string): Option<Timestamp> {
    var (mo, r1) :- ReadField(s, '/');
    var (d, r2) :- ReadField(r1, '/');
    var (y, r3) :- ReadField(r2, ' ');
    var (h, r4) :- ReadField(r3, ':');
    var (mi, r5) := SplitNumber(r4);
    if r5 != [] then None else Some(Timestamp(y, mo, d, h, mi))
  }

  lemma SplitNumberAfterText(n: nat, rest: string)
    requires rest == [] || !IsDigit(rest[0])
    ensures SplitNumber(NatToString(n) + rest) == (n, rest)
  {
    var d := NatToString(n);
    DigitRunOfConcat(d, rest);
    assert (d + rest)[..|d|] == d;
    assert (d + rest)[|d|..] == rest;
    NatToStringRoundTrip(n);
  }

  lemma ReadFieldAfterText(n: nat, sep: char, rest: string)
    requires !IsDigit(sep)
    ensures ReadField(NatToString(n) + [sep] + rest, sep) == Some((n, rest))
  {
    assert NatToString(n) + [sep] + rest == NatToString(n) + ([sep] + rest);
    SplitNumberAfterText(n, [sep] + rest);
    assert ([sep] + rest)[1..] == rest;
  }

  /** The display text determines all five fields it shows. */
  lemma FormatRoundTrip(t: Timestamp)
    ensures Unformat(Format(t)) == Some(t)
  {
    var r3 := NatToString(t.hour) + [':'] + NatToString(t.minute);
    var r2 := NatToString(t.year) + [' '] + r3;
    var r1 := NatToString(t.day) + ['/'] + r2;
    assert Format(t) == NatToString(t.month) + ['/'] + r1;
    ReadFieldAfterText(t.month, '/', r1);
    ReadFieldAfterText(t.day, '/', r2);
    ReadFieldAfterText(t.year, ' ', r3);
    ReadFieldAfterText(t.hour, ':', NatToString(t.minute));
    assert NatToString(t.minute) + [] == NatToString(t.minute);
    SplitNumberAfterText(t.minute, []);
  }

  lemma FormatInjective(t: Timestamp, u: Timestamp)
    requires Format(t) == Format(u)
    ensures t == u
  {
    FormatRoundTrip(t);
    FormatRoundTrip(u);
  }
}
