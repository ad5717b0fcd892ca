/**
 * The two textual event identifiers shared by the scripts.  An event is
 * known by its origin date and its magnitude; magnitudes are kept as whole
 * tenths (6.5 is 65), the precision the file names carry.
 *
 *   event id   "<mag>_<DD>-<Mon>-<YYYY>"   names the event and station files
 *   event id 2 "<YYYY>-<MM>-<DD>_<mag>"    names the per-event data and figures
 */
module EventIds {
  import opened Wrappers
  import opened Text

  datatype Date = Date(year: nat, month: nat, day: nat)

  predicate IsLeapYear(y: nat) { y % 4 == 0 && (y % 100 != 0 || y % 400 == 0) }

  function DaysInMonth(y: nat, m: nat): nat
    requires 1 <= m <= 12
  {
    if m == 2 then (if IsLeapYear(y) then 29 else 28)
    else if m == 4 || m == 6 || m == 9 || m == 11 then 30
    else 31
  }

  /** The dates Python's datetime accepts: years 1 to 9999 of the proleptic Gregorian calendar. */
  predicate ValidDate(d: Date)
  {
    1 <= d.year <= 9999 && 1 <= d.month <= 12 && 1 <= d.day <= DaysInMonth(d.year, d.month)
  }

  /** strftime's %b in the English locale. */
  const MONTH_ABBREVIATIONS: seq<string> :=
    ["Jan", "Feb", "Mar", "Apr", "May", "Jun", "Jul", "Aug", "Sep", "Oct", "Nov", "Dec"]

  /** The month an abbreviation stands for, 0 for none. */
  function MonthNumber(abbrev: string): nat
  {
    if abbrev == "Jan" then 1 else if abbrev == "Feb" then 2 else if abbrev == "Mar" then 3
    else if abbrev == "Apr" then 4 else if abbrev == "May" then 5 else if abbrev == "Jun" then 6
    else if abbrev == "Jul" then 7 else if abbrev == "Aug" then 8 else if abbrev == "Sep" then 9
    else if abbrev == "Oct" then 10 else if abbrev == "Nov" then 11 else if abbrev == "Dec" then 12
    else 0
  }

  /** Each month has its own abbreviation, three letters long. */
  lemma MonthAbbreviationsRead(m: nat)
    requires 1 <= m <= 12
    ensures |MONTH_ABBREVIATIONS[m - 1]| == 3 && MonthNumber(MONTH_ABBREVIATIONS[m - 1]) == m
  {
  }

  /**
   * A magnitude of t tenths printed with one decimal, as f"{mag:.1f}" does.
   * For a value with one decimal digit f"{mag}" prints the same text, so one
   * function stands for both.
   */
  function MagText(t: nat): (r: string)
    ensures |r| >= 3 && IsDigit(r[0]) && r[|r| - 2] == '.'
  {
    Decimal(t / 10) + "." + [DigitChar(t % 10)]
  }

  /** strftime("%d-%b-%Y"): the day, the month's abbreviation and the year, separated by '-'. */
  function DayMonthYear(d: Date): (r: string)
    requires ValidDate(d)
    ensures |r| == 11 && r[2] == '-' && r[6] == '-'
  {
    assert Pow10(2) == 100 && Pow10(4) == 10000;
    ZeroPadWidth(d.day, 2);
    ZeroPadWidth(d.year, 4);
    MonthAbbreviationsRead(d.month);
    ZeroPad(d.day, 2) + "-" + MONTH_ABBREVIATIONS[d.month - 1] + "-" + ZeroPad(d.year, 4)
  }

  /** The fields of DayMonthYear at their fixed places: two day digits, the month's abbreviation, four year digits. */
  lemma DayMonthYearFields(d: Date)
    requires ValidDate(d)
    ensures var r := DayMonthYear(d);
      AllDigits(r[..2]) && DigitsValue(r[..2]) == d.day &&
      r[3..6] == MONTH_ABBREVIATIONS[d.month - 1] &&
      AllDigits(r[7..]) && DigitsValue(r[7..]) == d.year
  {
    assert Pow10(2) == 100 && Pow10(4) == 10000;
    ZeroPadWidth(d.day, 2);
    ZeroPadWidth(d.year, 4);
    MonthAbbreviationsRead(d.month);
    DashedLayout(ZeroPad(d.day, 2), MONTH_ABBREVIATIONS[d.month - 1], ZeroPad(d.year, 4));
  }

  /** strftime("%Y-%m-%d"): the year, the month and the day, separated by '-'. */
  function IsoDate(d: Date): (r: string)
    requires ValidDate(d)
    ensures |r| == 10 && IsDigit(r[0]) && r[4] == '-' && r[7] == '-'
  {
    assert Pow10(2) == 100 && Pow10(4) == 10000;
    ZeroPadWidth(d.year, 4);
    ZeroPadWidth(d.month, 2);
    ZeroPadWidth(d.day, 2);
    ZeroPad(d.year, 4) + "-" + ZeroPad(d.month, 2) + "-" + ZeroPad(d.day, 2)
  }

  /** The fields of IsoDate at their fixed places: four year digits, two month digits, two day digits. */
  lemma IsoDateFields(d: Date)
    requires ValidDate(d)
    ensures var r := IsoDate(d);
      AllDigits(r[..4]) && DigitsValue(r[..4]) == d.year &&
      AllDigits(r[5..7]) && DigitsValue(r[5..7]) == d.month &&
      AllDigits(r[8..]) && DigitsValue(r[8..]) == d.day
  {
    assert Pow10(2) == 100 && Pow10(4) == 10000;
    ZeroPadWidth(d.year, 4);
    ZeroPadWidth(d.month, 2);
    ZeroPadWidth(d.day, 2);
    DashedLayout(ZeroPad(d.year, 4), ZeroPad(d.month, 2), ZeroPad(d.day, 2));
  }

  /** Three fields joined by '-' are found again around the two dashes. */
  lemma DashedLayout(a: string, b: string, c: string)
    ensures var r := a + "-" + b + "-" + c;
      |r| == |a| + |b| + |c| + 2 && r[..|a|] == a && r[|a|] == '-' &&
      r[|a| + 1..|a| + 1 + |b|] == b && r[|a| + 1 + |b|] == '-' && r[|a| + 2 + |b|..] == c
  {
  }

  /** Two fields joined by one character are found again on either side of it. */
  lemma AroundSeparator(a: string, c: char, b: string)
    ensures var r := a + [c] + b;
      |r| == |a| + 1 + |b| && r[..|a|] == a && r[|a|] == c && r[|a| + 1..] == b
  {
  }

  /** f"{mag:.1f}_{date_str2}": the printed magnitude, then '_' and the date in the last eleven characters. */
  function EventId(d: Date, t: nat): (r: string)
    requires ValidDate(d)
    ensures |r| >= 15 && IsDigit(r[0]) && r[|r| - 12] == '_'
    ensures r[..|r| - 12] == MagText(t) && r[|r| - 11..] == DayMonthYear(d)
  {
    AroundSeparator(MagText(t), '_', DayMonthYear(d));
    MagText(t) + "_" + DayMonthYear(d)
  }

  /** f"{date_str3}_{mag}": the date in the first ten characters, then '_' and the printed magnitude. */
  function EventId2(d: Date, t: nat): (r: string)
    requires ValidDate(d)
    ensures |r| >= 14 && IsDigit(r[0]) && r[10] == '_' && IsDigit(r[|r| - 1])
    ensures r[..10] == IsoDate(d)
    ensures r[11..] == MagText(t)
  {
    AroundSeparator(IsoDate(d), '_', MagText(t));
    IsoDate(d) + "_" + MagText(t)
  }

  /** Different events have different event ids: the date and the magnitude are recovered from it. */
  lemma EventIdInjective(d: Date, t: nat, d': Date, t': nat)
    requires ValidDate(d) && ValidDate(d')
    requires EventId(d, t) == EventId(d', t')
    ensures d == d' && t == t'
  {
    var x := EventId(d, t);
    assert x[..|x| - 12] == MagText(t');
    MagTextInjective(t, t');
    assert x[|x| - 11..] == DayMonthYear(d');
    DayMonthYearInjective(d, d');
  }

  lemma DayMonthYearInjective(d: Date, d': Date)
    requires ValidDate(d) && ValidDate(d')
    requires DayMonthYear(d) == DayMonthYear(d')
    ensures d == d'
  {
    var a := DayMonthYear(d);
    DayMonthYearFields(d);
    DayMonthYearFields(d');
    MonthAbbreviationsRead(d.month);
    MonthAbbreviationsRead(d'.month);
    assert MonthNumber(a[3..6]) == d.month;
  }

  /** Different events have different event ids 2: the date and the magnitude are recovered from it. */
  lemma EventId2Injective(d: Date, t: nat, d': Date, t': nat)
    requires ValidDate(d) && ValidDate(d')
    requires EventId2(d, t) == EventId2(d', t')
    ensures d == d' && t == t'
  {
    var x := EventId2(d, t);
    assert x[11..] == MagText(t');
    MagTextInjective(t, t');
    assert x[..10] == IsoDate(d');
    IsoDateFields(d);
    IsoDateFields(d');
  }

  /** The two identifiers tell the same events apart: each is equal exactly when the other is. */
  lemma EventIdsAgree(d: Date, t: nat, d': Date, t': nat)
    requires ValidDate(d) && ValidDate(d')
    ensures EventId(d, t) == EventId(d', t') <==> EventId2(d, t) == EventId2(d', t')
  {
    if EventId(d, t) == EventId(d', t') {
      EventIdInjective(d, t, d', t');
    }
    if EventId2(d, t) == EventId2(d', t') {
      EventId2Injective(d, t, d', t');
    }
  }

  // ---------------------------------------------------------------------
  // Reading a date and a magnitude from the batch list

  /** s is four year digits, '/', one or two month digits, '/', one or two day digits. */
  predicate SlashFields(s: string, y: string, m: string, dd: string)
  {
    s == y + "/" + m + "/" + dd && |y| == 4 && AllDigits(y) &&
    1 <= |m| <= 2 && AllDigits(m) && 1 <= |dd| <= 2 && AllDigits(dd)
  }

  /**
   * datetime.strptime(s, "%Y/%m/%d"): exactly four digits of year, one or two
   * digits of month and of day, separated by '/', nothing else, and a date the
   * calendar has; anything else raises ValueError (None here).
   */
  function ParseSlashDate(s: string): (r: Option<Date>)
    ensures r.Some? ==> ValidDate(r.value)
    ensures r.Some? ==> |s| >= 5 && s[4] == '/' && s[..4] == ZeroPad(r.value.year, 4)
    ensures r.Some? ==>
      (exists y, m, dd :: SlashFields(s, y, m, dd) && r.value == Date(DigitsValue(y), DigitsValue(m), DigitsValue(dd)))
  {
    if |s| < 5 || !AllDigits(s[..4]) || s[4] != '/' then None
    else
      var rest := s[5..];
      var k := Find(rest, '/');
      if k == |rest| then None
      else
        var mt, dt := rest[..k], rest[k + 1..];
        if !(1 <= |mt| <= 2 && AllDigits(mt) && 1 <= |dt| <= 2 && AllDigits(dt)) then None
        else
          var d := Date(DigitsValue(s[..4]), DigitsValue(mt), DigitsValue(dt));
          if !ValidDate(d) then None
          else
            ZeroPadOfDigits(s[..4]);
            SlashSplit(s, k);
            Some(d)
  }

  /** A line cut at its two slashes has the three fields of a slash date. */
  lemma SlashSplit(s: string, k: nat)
    requires |s| >= 5 && AllDigits(s[..4]) && s[4] == '/'
    requires k < |s[5..]| && s[5..][k] == '/'
    requires 1 <= |s[5..][..k]| <= 2 && AllDigits(s[5..][..k])
    requires 1 <= |s[5..][k + 1..]| <= 2 && AllDigits(s[5..][k + 1..])
    ensures SlashFields(s, s[..4], s[5..][..k], s[5..][k + 1..])
  {
    var rest := s[5..];
    assert rest == rest[..k] + "/" + rest[k + 1..];
    assert s == s[..4] + "/" + rest;
  }

  /** The date of a batch list line in its usual zero-padded form is read back. */
  lemma ParseSlashDateOfPadded(d: Date, mw: nat, dw: nat)
    requires ValidDate(d) && 1 <= mw <= 2 && 1 <= dw <= 2
    requires d.month < Pow10(mw) && d.day < Pow10(dw)
    ensures ParseSlashDate(ZeroPad(d.year, 4) + "/" + ZeroPad(d.month, mw) + "/" + ZeroPad(d.day, dw)) == Some(d)
  {
    ZeroPadWidth(d.year, 4);
    ZeroPadWidth(d.month, mw);
    ZeroPadWidth(d.day, dw);
    ParseSlashDateOfFields(ZeroPad(d.year, 4), ZeroPad(d.month, mw), ZeroPad(d.day, dw));
  }

  /**
   * Four digits of year, one or two of month and of day, naming a calendar
   * date, are read as that date: the converse of ParseSlashDate's contract.
   */
  lemma ParseSlashDateOfFields(y: string, m: string, dd: string)
    requires SlashFields(y + "/" + m + "/" + dd, y, m, dd)
    requires ValidDate(Date(DigitsValue(y), DigitsValue(m), DigitsValue(dd)))
    ensures ParseSlashDate(y + "/" + m + "/" + dd) == Some(Date(DigitsValue(y), DigitsValue(m), DigitsValue(dd)))
  {
    var s := y + "/" + m + "/" + dd;
    assert s[..4] == y;
    assert s[4] == '/';
    var rest := s[5..];
    assert rest == m + "/" + dd;
    assert rest[|m|] == '/';
    assert forall j :: 0 <= j < |m| ==> rest[j] == m[j];
    assert Find(rest, '/') == |m|;
    assert rest[..|m|] == m;
    assert rest[|m| + 1..] == dd;
  }

  /**
   * float(token) for the tokens that denote a count of tenths: digits, or
   * digits, a point and one digit.  Any other token gives None.
   */
  function ParseMagnitude(tok: string): (r: Option<nat>)
    ensures r.Some? && '.' !in tok ==> tok != [] && AllDigits(tok) && r.value == DigitsValue(tok) * 10
    ensures r.Some? && '.' in tok ==>
      |tok| >= 3 && tok[|tok| - 2] == '.' && tok[..|tok| - 2] != [] && AllDigits(tok[..|tok| - 2]) &&
      IsDigit(tok[|tok| - 1]) && r.value == DigitsValue(tok[..|tok| - 2]) * 10 + DigitValue(tok[|tok| - 1])
  {
    var k := Find(tok, '.');
    if k == |tok| then
      if tok != [] && AllDigits(tok) then Some(DigitsValue(tok) * 10) else None
    else
      var ip, fp := tok[..k], tok[k + 1..];
      if ip != [] && AllDigits(ip) && |fp| == 1 && IsDigit(fp[0])
      then Some(DigitsValue(ip) * 10 + DigitValue(fp[0]))
      else None
  }

  /** Digits, a point and one digit are read as that many tenths: the converse of ParseMagnitude's contract. */
  lemma ParseMagnitudeOfPoint(ip: string, c: char)
    requires ip != [] && AllDigits(ip) && IsDigit(c)
    ensures ParseMagnitude(ip + "." + [c]) == Some(DigitsValue(ip) * 10 + DigitValue(c))
  {
    var s := ip + "." + [c];
    assert forall j :: 0 <= j < |ip| ==> s[j] == ip[j] && ip[j] != '.';
    assert Find(s, '.') == |ip|;
    assert s[..|ip|] == ip;
    assert s[|ip| + 1..] == [c];
  }

  /** The printed magnitude reads back as the same magnitude. */
  lemma ParseMagnitudeOfMagText(t: nat)
    ensures ParseMagnitude(MagText(t)) == Some(t)
  {
    ParseMagnitudeOfPoint(Decimal(t / 10), DigitChar(t % 10));
  }

  /** Different magnitudes print differently. */
  lemma MagTextInjective(t: nat, u: nat)
    requires MagText(t) == MagText(u)
    ensures t == u
  {
    ParseMagnitudeOfMagText(t);
    ParseMagnitudeOfMagText(u);
  }
}
