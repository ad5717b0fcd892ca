/**
 * Recognising a processed event in a file name, as both plotting scripts do:
 * re.search with the pattern
 *
 *   (?P<year>\d{4})-(?P<month>\d{2})-(?P<day>\d{2})_(?P<magnitude>\d\.\d)
 *
 * finds the leftmost place where the fourteen characters "YYYY-MM-DD_M.M"
 * occur; the groups become a date (datetime raises ValueError on a date the
 * calendar does not have) and a magnitude of at most 9.9.
 */
module EventIdPattern {
  import opened Wrappers
  import opened Text
  import opened EventIds

  /** Every match of the pattern is this long. */
  const MATCH_LENGTH := 14

  /** Fourteen characters of the form "dddd-dd-dd_d.d", d a decimal digit. */
  predicate Matches(p: string)
    requires |p| == MATCH_LENGTH
  {
    IsDigit(p[0]) && IsDigit(p[1]) && IsDigit(p[2]) && IsDigit(p[3]) &&
    p[4] == '-' && IsDigit(p[5]) && IsDigit(p[6]) &&
    p[7] == '-' && IsDigit(p[8]) && IsDigit(p[9]) &&
    p[10] == '_' && IsDigit(p[11]) && p[12] == '.' && IsDigit(p[13])
  }

  /** The pattern matches the fourteen characters of s from position i. */
  predicate MatchesAt(s: string, i: nat)
    requires i + MATCH_LENGTH <= |s|
  {
    Matches(s[i..i + MATCH_LENGTH])
  }

  /** The leftmost match starting at i or later. */
  function SearchFrom(s: string, i: nat): (r: Option<nat>)
    ensures r.Some? ==>
      i <= r.value && r.value + MATCH_LENGTH <= |s| && MatchesAt(s, r.value) &&
      forall j :: i <= j < r.value ==> !MatchesAt(s, j)
    ensures r.None? ==> forall j :: i <= j && j + MATCH_LENGTH <= |s| ==> !MatchesAt(s, j)
    decreases |s| - i
  {
    if i + MATCH_LENGTH > |s| then None
    else if MatchesAt(s, i) then Some(i)
    else SearchFrom(s, i + 1)
  }

  /** re.search: the position of the leftmost match, if any. */
  function Search(s: string): (r: Option<nat>)
    ensures r.Some? ==>
      r.value + MATCH_LENGTH <= |s| && MatchesAt(s, r.value) &&
      forall j :: 0 <= j < r.value ==> !MatchesAt(s, j)
    ensures r.None? == forall j :: 0 <= j && j + MATCH_LENGTH <= |s| ==> !MatchesAt(s, j)
  {
    SearchFrom(s, 0)
  }

  /** int() of the year, month and day groups and the magnitude in tenths. */
  datatype Groups = Groups(year: nat, month: nat, day: nat, tenths: nat)

  /** The groups of a matched window. */
  function GroupsOf(p: string): (g: Groups)
    requires |p| == MATCH_LENGTH && Matches(p)
    ensures g.month < 100 && g.day < 100 && g.tenths < 100
  {
    assert Pow10(2) == 100;
    DigitsValueBound(p[5..7]);
    DigitsValueBound(p[8..10]);
    Groups(DigitsValue(p[..4]), DigitsValue(p[5..7]), DigitsValue(p[8..10]),
           DigitValue(p[11]) * 10 + DigitValue(p[13]))
  }

  function GroupsAt(s: string, i: nat): (g: Groups)
    requires i + MATCH_LENGTH <= |s| && MatchesAt(s, i)
    ensures g.month < 100 && g.day < 100 && g.tenths < 100
  {
    GroupsOf(s[i..i + MATCH_LENGTH])
  }

  /** What a file name amounts to: no match, a match whose date raises, or an event. */
  datatype Parsed =
    | NoMatch
    | InvalidDate(groups: Groups)
    | Event(date: Date, tenths: nat)

  /**
   * One iteration of either plotting loop up to the event ids: the leftmost
   * match, its groups, and the date they must form.
   */
  function ParseName(f: string): (r: Parsed)
    ensures r.NoMatch? == Search(f).None?
    ensures r.InvalidDate? ==>
      Search(f).Some? && r.groups == GroupsAt(f, Search(f).value) &&
      !ValidDate(Date(r.groups.year, r.groups.month, r.groups.day))
    ensures r.Event? ==>
      ValidDate(r.date) && r.tenths < 100 && Search(f).Some? &&
      GroupsAt(f, Search(f).value) == Groups(r.date.year, r.date.month, r.date.day, r.tenths)
  {
    match Search(f)
    case None => NoMatch
    case Some(i) =>
      var g := GroupsAt(f, i);
      var d := Date(g.year, g.month, g.day);
      if ValidDate(d) then Event(d, g.tenths) else InvalidDate(g)
  }

  /** The event id 2 of a name's event is exactly the text the pattern matched. */
  lemma ParseNameMatched(f: string)
    requires ParseName(f).Event?
    ensures var r := ParseName(f); var i := Search(f).value;
      i + MATCH_LENGTH <= |f| && EventId2(r.date, r.tenths) == f[i..i + MATCH_LENGTH]
  {
    MatchedIsEventId2(f[Search(f).value..Search(f).value + MATCH_LENGTH]);
  }

  /** A window of fourteen characters, cut at the pattern's separators. */
  lemma Pieces(p: string)
    requires |p| == MATCH_LENGTH
    ensures p == p[..4] + "-" + p[5..7] + "-" + p[8..10] + "_" + [p[11]] + "." + [p[13]] <==>
      p[4] == '-' && p[7] == '-' && p[10] == '_' && p[12] == '.'
  {
    var q := p[..4] + "-" + p[5..7] + "-" + p[8..10] + "_" + [p[11]] + "." + [p[13]];
    assert |q| == MATCH_LENGTH;
    assert q[4] == '-' && q[7] == '-' && q[10] == '_' && q[12] == '.';
    if p[4] == '-' && p[7] == '-' && p[10] == '_' && p[12] == '.' {
      assert forall k :: 0 <= k < MATCH_LENGTH ==> p[k] == q[k];
    }
  }

  /** The groups of a match whose date is valid print back as the matched text. */
  lemma MatchedIsEventId2(p: string)
    requires |p| == MATCH_LENGTH && Matches(p)
    requires var g := GroupsOf(p); ValidDate(Date(g.year, g.month, g.day))
    ensures var g := GroupsOf(p); EventId2(Date(g.year, g.month, g.day), g.tenths) == p
  {
    var g := GroupsOf(p);
    var date := Date(g.year, g.month, g.day);
    var y, m, d := p[..4], p[5..7], p[8..10];
    ZeroPadOfDigits(y);
    ZeroPadOfDigits(m);
    ZeroPadOfDigits(d);
    assert IsoDate(date) == y + "-" + m + "-" + d;
    var a, b := DigitValue(p[11]), DigitValue(p[13]);
    assert g.tenths / 10 == a && g.tenths % 10 == b;
    assert Decimal(a) == [p[11]];
    assert MagText(g.tenths) == [p[11]] + "." + [p[13]];
    Pieces(p);
  }

  /** strftime("%Y-%m-%d") of a valid date: ten characters, the fields at fixed places. */
  lemma IsoDateLayout(d: Date)
    requires ValidDate(d)
    ensures var iso := IsoDate(d);
      |iso| == 10 && iso[..4] == ZeroPad(d.year, 4) && iso[4] == '-' &&
      iso[5..7] == ZeroPad(d.month, 2) && iso[7] == '-' && iso[8..10] == ZeroPad(d.day, 2)
  {
    assert Pow10(2) == 100 && Pow10(4) == 10000;
    ZeroPadWidth(d.year, 4);
    ZeroPadWidth(d.month, 2);
    ZeroPadWidth(d.day, 2);
    var y, m, dd := ZeroPad(d.year, 4), ZeroPad(d.month, 2), ZeroPad(d.day, 2);
    var iso := IsoDate(d);
    assert iso == y + "-" + m + "-" + dd;
  }

  /** A magnitude below 10 prints as one digit, a point and one digit. */
  lemma MagTextSmall(t: nat)
    requires t < 100
    ensures MagText(t) == [DigitChar(t / 10)] + "." + [DigitChar(t % 10)]
  {
    assert Decimal(t / 10) == [DigitChar(t / 10)];
  }

  /** From 10 on, the second character of the printed magnitude is still a digit, and no '_' occurs. */
  lemma MagTextLarge(t: nat)
    requires t >= 100
    ensures |MagText(t)| >= 2 && IsDigit(MagText(t)[1]) && '_' !in MagText(t)
  {
    var ip := Decimal(t / 10);
    assert |ip| >= 2;
    assert MagText(t)[1] == ip[1];
    assert forall j :: 0 <= j < |ip| ==> IsDigit(ip[j]);
  }

  /** An event id 2 of magnitude below 10 is a match, with its own groups. */
  lemma MatchOfEventId2(d: Date, t: nat)
    requires ValidDate(d) && t < 100
    ensures var p := EventId2(d, t);
      |p| == MATCH_LENGTH && Matches(p) && GroupsOf(p) == Groups(d.year, d.month, d.day, t)
  {
    IsoDateLayout(d);
    MagTextSmall(t);
    var iso := IsoDate(d);
    var p := EventId2(d, t);
    assert p == iso + "_" + MagText(t);
    assert |p| == MATCH_LENGTH;
    assert p[..4] == iso[..4] && p[5..7] == iso[5..7] && p[8..10] == iso[8..10];
    assert p[11] == DigitChar(t / 10) && p[12] == '.' && p[13] == DigitChar(t % 10);
    var y, m, dd := iso[..4], iso[5..7], iso[8..10];
    assert p[0] == y[0] && p[1] == y[1] && p[2] == y[2] && p[3] == y[3];
    assert p[5] == m[0] && p[6] == m[1] && p[8] == dd[0] && p[9] == dd[1];
  }

  /** The name of a converted event reads back as that event, whatever follows the id. */
  lemma ParseNameOfEventId2(d: Date, t: nat, ext: string)
    requires ValidDate(d) && t < 100
    ensures ParseName(EventId2(d, t) + ext) == Event(d, t)
  {
    MatchOfEventId2(d, t);
    var f := EventId2(d, t) + ext;
    assert f[0..MATCH_LENGTH] == EventId2(d, t);
  }

  /**
   * An event id 2 of magnitude 10 or more has at least two digits before the
   * point, so a name made of it and a suffix without '_' does not match.
   */
  lemma ParseNameOfLargeMagnitude(d: Date, t: nat, ext: string)
    requires ValidDate(d) && t >= 100 && '_' !in ext
    ensures ParseName(EventId2(d, t) + ext) == NoMatch
  {
    IsoDateLayout(d);
    MagTextLarge(t);
    var iso := IsoDate(d);
    var q := MagText(t) + ext;
    var f := EventId2(d, t) + ext;
    assert f == iso + "_" + q;
    assert '_' !in iso[..4] && '_' !in iso[5..7] && '_' !in iso[8..10];
    assert forall j :: 0 <= j < |iso| ==> iso[j] != '_';
    assert forall j :: 0 <= j < |q| ==> q[j] != '_';
    forall i: nat | i + MATCH_LENGTH <= |f|
      ensures !MatchesAt(f, i)
    {
      var p := f[i..i + MATCH_LENGTH];
      if i == 0 {
        assert p[12] == q[1];
      } else {
        assert p[10] == q[i - 1];
      }
    }
  }

  // ---------------------------------------------------------------------
  // The loop over the directory listing

  /** The events a listing yields, and the groups of the name whose date raised, if one did. */
  datatype Scan = Scan(events: seq<(Date, nat)>, stop: Option<Groups>)

  predicate Plottable(e: (Date, nat)) { ValidDate(e.0) && e.1 < 100 }

  /** One value per event, in order: the shape of what both plotting loops issue. */
  function MapEvents<T>(events: seq<(Date, nat)>, f: (Date, nat) --> T): seq<T>
    requires forall k :: 0 <= k < |events| ==> f.requires(events[k].0, events[k].1)
  {
    seq(|events|, k requires 0 <= k < |events| => f(events[k].0, events[k].1))
  }

  /** One more event adds exactly its value at the end. */
  lemma MapEventsSnoc<T>(events: seq<(Date, nat)>, e: (Date, nat), f: (Date, nat) --> T)
    requires forall k :: 0 <= k < |events| ==> f.requires(events[k].0, events[k].1)
    requires f.requires(e.0, e.1)
    ensures forall k :: 0 <= k < |events + [e]| ==> f.requires((events + [e])[k].0, (events + [e])[k].1)
    ensures MapEvents(events + [e], f) == MapEvents(events, f) + [f(e.0, e.1)]
  {
    var all := events + [e];
    forall k | 0 <= k < |all|
      ensures all[k] == if k < |events| then events[k] else e
    {
    }
    assert MapEvents(all, f) == MapEvents(events, f) + [f(e.0, e.1)];
  }

  /** Every name of a listing, parsed. */
  function ParseAll(names: seq<string>): seq<Parsed>
  {
    seq(|names|, k requires 0 <= k < |names| => ParseName(names[k]))
  }

  /** What ParseName promises of an event. */
  predicate WellParsed(p: Parsed) { p.Event? ==> Plottable((p.date, p.tenths)) }

  /**
   * The loop over parsed names: a name without a match is skipped, a match
   * with an impossible date ends the loop, every other name yields an event.
   */
  function ScanParsed(ps: seq<Parsed>): (r: Scan)
    ensures |r.events| <= |ps|
    ensures (forall k :: 0 <= k < |ps| ==> WellParsed(ps[k])) ==>
      forall k :: 0 <= k < |r.events| ==> Plottable(r.events[k])
  {
    if ps == [] then Scan([], None)
    else
      assert forall k :: 0 <= k < |ps| - 1 ==> ps[1..][k] == ps[k + 1];
      match ps[0]
      case NoMatch => ScanParsed(ps[1..])
      case InvalidDate(g) => Scan([], Some(g))
      case Event(d, t) =>
        var rest := ScanParsed(ps[1..]);
        Scan([(d, t)] + rest.events, rest.stop)
  }

  /**
   * for f in os.listdir(...) up to the event ids: every event found is a
   * calendar date with a magnitude below 10, and there are no more events
   * than names.
   */
  function ScanNames(names: seq<string>): (r: Scan)
    ensures forall k :: 0 <= k < |r.events| ==> Plottable(r.events[k])
    ensures |r.events| <= |names|
  {
    var ps := ParseAll(names);
    assert forall k :: 0 <= k < |ps| ==> ps[k] == ParseName(names[k]) && WellParsed(ps[k]);
    ScanParsed(ps)
  }

  /** The loop having yielded found, resumed at ps[i..]. */
  function Resume(found: seq<(Date, nat)>, ps: seq<Parsed>, i: nat): Scan
    requires i <= |ps|
  {
    var rest := ScanParsed(ps[i..]);
    Scan(found + rest.events, rest.stop)
  }

  lemma ResumeStart(names: seq<string>)
    ensures Resume([], ParseAll(names), 0) == ScanNames(names)
  {
    var ps := ParseAll(names);
    assert ps[0..] == ps;
    assert [] + ScanParsed(ps).events == ScanParsed(ps).events;
  }

  lemma ResumeEnd(found: seq<(Date, nat)>, ps: seq<Parsed>)
    ensures Resume(found, ps, |ps|) == Scan(found, None)
  {
    assert ps[|ps|..] == [];
    assert found + [] == found;
  }

  /** A name without a match is skipped. */
  lemma ResumeSkip(found: seq<(Date, nat)>, ps: seq<Parsed>, i: nat)
    requires i < |ps| && ps[i] == NoMatch
    ensures Resume(found, ps, i) == Resume(found, ps, i + 1)
  {
    assert ps[i..][0] == ps[i] && ps[i..][1..] == ps[i + 1..];
  }

  /** A name whose date raises ends the loop. */
  lemma ResumeStop(found: seq<(Date, nat)>, ps: seq<Parsed>, i: nat, g: Groups)
    requires i < |ps| && ps[i] == InvalidDate(g)
    ensures Resume(found, ps, i) == Scan(found, Some(g))
  {
    assert ps[i..][0] == ps[i];
    assert found + [] == found;
  }

  /** A name that yields an event adds it to what was found. */
  lemma ResumeEvent(found: seq<(Date, nat)>, ps: seq<Parsed>, i: nat, d: Date, t: nat)
    requires i < |ps| && ps[i] == Event(d, t)
    ensures Resume(found, ps, i) == Resume(found + [(d, t)], ps, i + 1)
  {
    assert ps[i..][0] == ps[i] && ps[i..][1..] == ps[i + 1..];
    var rest := ScanParsed(ps[i + 1..]);
    assert found + ([(d, t)] + rest.events) == (found + [(d, t)]) + rest.events;
  }

  /**
   * The __main__ loop both plotting scripts run over a listing of
   * obspy_pkl_data: the command of every name that yields an event, in
   * listing order, until a name whose date raises.
   */
  method CommandsOfListing<T>(names: seq<string>, command: (Date, nat) --> T)
    returns (commands: seq<T>, stop: Option<Groups>)
    requires forall d: Date, t: nat :: Plottable((d, t)) ==> command.requires(d, t)
    ensures var scan := ScanNames(names);
      commands == MapEvents(scan.events, command) && stop == scan.stop
  {
    commands, stop := [], None;
    ghost var found: seq<(Date, nat)> := [];
    ghost var ps := ParseAll(names);
    ResumeStart(names);
    var i := 0;
    while i < |names|
      invariant 0 <= i <= |names|
      invariant forall k :: 0 <= k < |found| ==> Plottable(found[k])
      invariant commands == MapEvents(found, command)
      invariant ScanNames(names) == Resume(found, ps, i)
    {
      var p := ParseName(names[i]);
      assert p == ps[i];
      if p.NoMatch? {
        ResumeSkip(found, ps, i);
      } else if p.InvalidDate? {
        ResumeStop(found, ps, i, p.groups);
        stop := Some(p.groups);
        return;
      } else {
        ResumeEvent(found, ps, i, p.date, p.tenths);
        MapEventsSnoc(found, (p.date, p.tenths), command);
        commands := commands + [command(p.date, p.tenths)];
        found := found + [(p.date, p.tenths)];
      }
      i := i + 1;
    }
    ResumeEnd(found, ps);
  }

  /** The ".pkl" files the conversion step writes, one per event. */
  function PklNames(events: seq<(Date, nat)>): seq<string>
    requires forall k :: 0 <= k < |events| ==> Plottable(events[k])
  {
    seq(|events|, k requires 0 <= k < |events| => assert Plottable(events[k]); EventId2(events[k].0, events[k].1) + ".pkl")
  }

  /** Names that all yield events yield those events, in order, without stopping. */
  lemma {:induction false} ScanAllEvents(ps: seq<Parsed>, events: seq<(Date, nat)>)
    requires |ps| == |events|
    requires forall k :: 0 <= k < |ps| ==> ps[k] == Event(events[k].0, events[k].1)
    ensures ScanParsed(ps) == Scan(events, None)
  {
    if ps != [] {
      assert forall k :: 0 <= k < |ps| - 1 ==> ps[1..][k] == ps[k + 1] && events[1..][k] == events[k + 1];
      ScanAllEvents(ps[1..], events[1..]);
      assert [events[0]] + events[1..] == events;
    }
  }

  /** Listing the converted files yields exactly the converted events, in the listing's order. */
  lemma ScanOfPklNames(events: seq<(Date, nat)>)
    requires forall k :: 0 <= k < |events| ==> Plottable(events[k])
    ensures ScanNames(PklNames(events)) == Scan(events, None)
  {
    var names := PklNames(events);
    var ps := ParseAll(names);
    forall k | 0 <= k < |ps|
      ensures ps[k] == Event(events[k].0, events[k].1)
    {
      assert Plottable(events[k]);
      ParseNameOfEventId2(events[k].0, events[k].1, ".pkl");
    }
    ScanAllEvents(ps, events);
  }

  /** The loop over parsed names ends early exactly when one of them is an impossible date. */
  lemma {:induction false} ScanParsedStops(ps: seq<Parsed>)
    ensures ScanParsed(ps).stop.Some? <==> exists k :: 0 <= k < |ps| && ps[k].InvalidDate?
  {
    if ps != [] {
      ScanParsedStops(ps[1..]);
      if !ps[0].InvalidDate? {
        assert forall k :: 1 <= k < |ps| ==> ps[k] == ps[1..][k - 1];
        if exists k :: 0 <= k < |ps| && ps[k].InvalidDate? {
          var k :| 0 <= k < |ps| && ps[k].InvalidDate?;
          assert ps[1..][k - 1].InvalidDate?;
        }
      }
    }
  }

  /** The loop ends early exactly when some name matches with a date the calendar does not have. */
  lemma ScanStops(names: seq<string>)
    ensures ScanNames(names).stop.Some? <==>
      exists k :: 0 <= k < |names| && ParseName(names[k]).InvalidDate?
  {
    var ps := ParseAll(names);
    ScanParsedStops(ps);
    assert forall k :: 0 <= k < |names| ==> ps[k] == ParseName(names[k]);
  }
}
