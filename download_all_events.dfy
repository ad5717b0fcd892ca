/**
 * The batch driver: for every line of the event list after the first, read a
 * date and a magnitude, look for the event and station files named by the
 * event id, skip the entry when one is missing, and otherwise enter
 * mseed_data/<event id 2> (creating it if needed) and hand the event to the
 * download and conversion steps.
 *
 * The filesystem is the set of paths that exist, the working directory a
 * variable; the download and conversion steps are recorded as an action.
 */
module DownloadAllEvents {
  import opened Wrappers
  import opened Text
  import opened Paths
  import opened EventIds

  const EVENTS_DIR := "events_usgs_cmtslt"
  const STATIONS_DIR := "stations_usgs_cmtslt"
  const MSEED_DATA_DIR := "mseed_data"
  const PKL_DATA_DIR := "obspy_pkl_data"

  /** os.path.join(events_dir, f"{event_id}.cmtsolution"): the event file, named by the event id. */
  function EventFile(d: Date, t: nat): (r: string)
    requires ValidDate(d)
    ensures r == EVENTS_DIR + "/" + EventId(d, t) + ".cmtsolution"
  {
    NamedBelow(EVENTS_DIR, EventId(d, t), ".cmtsolution");
    Join(EVENTS_DIR, EventId(d, t) + ".cmtsolution")
  }

  /** os.path.join(stations_dir, f"{event_id}_receivers.dat"): the station list, named by the event id. */
  function StationsFile(d: Date, t: nat): (r: string)
    requires ValidDate(d)
    ensures r == STATIONS_DIR + "/" + EventId(d, t) + "_receivers.dat"
  {
    NamedBelow(STATIONS_DIR, EventId(d, t), "_receivers.dat");
    Join(STATIONS_DIR, EventId(d, t) + "_receivers.dat")
  }

  /** The directory the waveforms of the event are downloaded into: cur_dir/mseed_data/<event id 2>. */
  function EventDataDir(curDir: string, d: Date, t: nat): (r: string)
    requires ValidDate(d)
    ensures r == JoinPrefix(curDir) + MSEED_DATA_DIR + "/" + EventId2(d, t)
  {
    NamedBelow(Join(curDir, MSEED_DATA_DIR), EventId2(d, t), "");
    Join(Join(curDir, MSEED_DATA_DIR), EventId2(d, t))
  }

  /** os.path.join(cur_dir, pkl_data_dir + f"/{event_id2}.pkl"): cur_dir/obspy_pkl_data/<event id 2>.pkl. */
  function PklFile(curDir: string, d: Date, t: nat): (r: string)
    requires ValidDate(d)
    ensures r == JoinPrefix(curDir) + PKL_DATA_DIR + "/" + EventId2(d, t) + ".pkl"
  {
    PklFileOf(curDir, EventId2(d, t));
    Join(curDir, PKL_DATA_DIR + "/" + EventId2(d, t) + ".pkl")
  }

  /** A name that starts with a digit, joined below a directory that does not end with '/'. */
  lemma NamedBelow(dir: string, id: string, ext: string)
    requires dir != [] && dir[|dir| - 1] != '/'
    requires id != [] && IsDigit(id[0])
    ensures Join(dir, id + ext) == dir + "/" + id + ext
    ensures Join(dir, id) == dir + "/" + id
  {
    assert (id + ext)[0] == id[0];
    assert id + "" == id;
  }

  lemma PklFileOf(curDir: string, id: string)
    ensures Join(curDir, PKL_DATA_DIR + "/" + id + ".pkl") == JoinPrefix(curDir) + PKL_DATA_DIR + "/" + id + ".pkl"
  {
    var rel := PKL_DATA_DIR + "/" + id + ".pkl";
    assert rel[0] == 'o';
    assert JoinPrefix(curDir) + rel == JoinPrefix(curDir) + PKL_DATA_DIR + "/" + id + ".pkl";
  }

  /** The uncaught exceptions that end the whole batch. */
  datatype Failure =
    | NoDateField              // line.split()[0] raises IndexError
    | NoMagnitudeField         // line.split()[1] raises IndexError
    | BadMagnitude(token: string)  // float() raises ValueError
    | BadDate(token: string)   // strptime raises ValueError
    | NoDataDir                // os.chdir(mseed_data_dir) raises FileNotFoundError

  /** What one entry of the list amounts to; the log line names the event by its id 2. */
  datatype Action =
    | SkipEvent(eventId2: string)     // "unable to open event file"
    | SkipStations(eventId2: string)  // "unable to open station file"
    | Process(eventId2: string, workDir: string, pklFile: string)

  /** The date (token 1) and magnitude (token 2) of a line; the magnitude is converted first. */
  function ParseLine(line: string): (r: Result<(Date, nat), Failure>)
    ensures r.Ok? ==> ValidDate(r.value.0)
    ensures r.Ok? ==>
      var toks := Tokens(line, PY_WHITESPACE);
      |toks| >= 2 && ParseSlashDate(toks[0]) == Some(r.value.0) && ParseMagnitude(toks[1]) == Some(r.value.1)
    ensures var toks := Tokens(line, PY_WHITESPACE);
      |toks| >= 2 && ParseMagnitude(toks[1]).Some? && ParseSlashDate(toks[0]).Some? ==>
      r == Ok((ParseSlashDate(toks[0]).value, ParseMagnitude(toks[1]).value))
    ensures var toks := Tokens(line, PY_WHITESPACE);
      (|toks| == 0 ==> r == Err(NoDateField)) && (|toks| == 1 ==> r == Err(NoMagnitudeField))
    ensures var toks := Tokens(line, PY_WHITESPACE);
      |toks| >= 2 && ParseMagnitude(toks[1]).None? ==> r == Err(BadMagnitude(toks[1]))
    ensures var toks := Tokens(line, PY_WHITESPACE);
      |toks| >= 2 && ParseMagnitude(toks[1]).Some? && ParseSlashDate(toks[0]).None? ==> r == Err(BadDate(toks[0]))
  {
    var toks := Tokens(line, PY_WHITESPACE);
    if |toks| < 1 then Err(NoDateField)
    else if |toks| < 2 then Err(NoMagnitudeField)
    else
      match ParseMagnitude(toks[1])
      case None => Err(BadMagnitude(toks[1]))
      case Some(t) =>
        match ParseSlashDate(toks[0])
        case None => Err(BadDate(toks[0]))
        case Some(d) => Ok((d, t))
  }

  /** Digits are not separators for str.split(). */
  lemma DigitsNoBlank(s: string)
    requires AllDigits(s)
    ensures NoneIn(s, PY_WHITESPACE)
  {
    forall i | 0 <= i < |s| ensures s[i] !in PY_WHITESPACE {
      assert IsDigit(s[i]);
    }
  }

  /** The date of a line, with four year digits and month and day padded to mw and dw digits. */
  function ListedDate(d: Date, mw: nat, dw: nat): (r: string)
    ensures NoneIn(r, PY_WHITESPACE)
  {
    DigitsNoBlank(ZeroPad(d.year, 4));
    DigitsNoBlank(ZeroPad(d.month, mw));
    DigitsNoBlank(ZeroPad(d.day, dw));
    NoneInAppend(ZeroPad(d.year, 4), "/", PY_WHITESPACE);
    NoneInAppend(ZeroPad(d.year, 4) + "/", ZeroPad(d.month, mw), PY_WHITESPACE);
    NoneInAppend(ZeroPad(d.year, 4) + "/" + ZeroPad(d.month, mw), "/", PY_WHITESPACE);
    NoneInAppend(ZeroPad(d.year, 4) + "/" + ZeroPad(d.month, mw) + "/", ZeroPad(d.day, dw), PY_WHITESPACE);
    ZeroPad(d.year, 4) + "/" + ZeroPad(d.month, mw) + "/" + ZeroPad(d.day, dw)
  }

  /** A printed magnitude holds no separator. */
  lemma MagTextNoBlank(t: nat)
    ensures NoneIn(MagText(t), PY_WHITESPACE)
  {
    var ip := Decimal(t / 10);
    DigitsNoBlank(ip);
    NoneInAppend(ip, ".", PY_WHITESPACE);
    NoneInAppend(ip + ".", [DigitChar(t % 10)], PY_WHITESPACE);
  }

  /** Two words joined by a blank, then the end of the line or a separator: the words are the first two tokens. */
  lemma FirstTwoTokens(a: string, b: string, rest: string)
    requires a != [] && NoneIn(a, PY_WHITESPACE) && b != [] && NoneIn(b, PY_WHITESPACE)
    requires rest == [] || rest[0] in PY_WHITESPACE
    ensures Tokens(a + " " + b + rest, PY_WHITESPACE) == [a, b] + Tokens(rest, PY_WHITESPACE)
  {
    assert a + " " + b + rest == a + ([' '] + (b + rest));
    TokensWord(a, [' '] + (b + rest), PY_WHITESPACE);
    TokensSkip(' ', b + rest, PY_WHITESPACE);
    TokensWord(b, rest, PY_WHITESPACE);
  }

  /**
   * A line of the list: a date with four year digits and one- or two-digit
   * month and day, a blank, the printed magnitude, then the end of the line
   * or a separator; it is read as that event.
   */
  lemma ParseLineOfListed(d: Date, mw: nat, dw: nat, t: nat, rest: string)
    requires ValidDate(d) && 1 <= mw <= 2 && 1 <= dw <= 2
    requires d.month < Pow10(mw) && d.day < Pow10(dw)
    requires rest == [] || rest[0] in PY_WHITESPACE
    ensures ParseLine(ListedDate(d, mw, dw) + " " + MagText(t) + rest) == Ok((d, t))
  {
    var date, mag := ListedDate(d, mw, dw), MagText(t);
    MagTextNoBlank(t);
    FirstTwoTokens(date, mag, rest);
    ParseSlashDateOfPadded(d, mw, dw);
    ParseMagnitudeOfMagText(t);
  }

  datatype Step = Step(action: Action, fs: set<string>)

  /**
   * The names one iteration works with: the event id 2 it logs, the event
   * file, the station file and the data directory it tests, the directory it
   * works in and the pickle the conversion writes.
   */
  datatype Targets = Targets(eventId2: string, eventFile: string, stationsFile: string,
                             dataDir: string, workDir: string, pklFile: string)

  /** The names of the event of date d and magnitude t, below curDir. */
  function TargetsOf(d: Date, t: nat, curDir: string): Targets
    requires ValidDate(d)
  {
    Targets(EventId2(d, t), Join(curDir, EventFile(d, t)), Join(curDir, StationsFile(d, t)),
            Join(curDir, MSEED_DATA_DIR), EventDataDir(curDir, d, t), PklFile(curDir, d, t))
  }

  /**
   * The tests of an iteration on the names g: skip the event when its event
   * file or its station file is missing, raise when the data directory is
   * missing, and otherwise process it in its work directory, creating that
   * directory; nothing else is created.
   */
  function Decide(g: Targets, fs: set<string>): (r: Result<Step, Failure>)
    ensures Creates(r, fs)
    ensures r.Ok? && r.value.action.Process? <==>
      g.eventFile in fs && g.stationsFile in fs && g.dataDir in fs
    ensures g.eventFile !in fs ==> r == Ok(Step(SkipEvent(g.eventId2), fs))
    ensures g.eventFile in fs && g.stationsFile !in fs ==> r == Ok(Step(SkipStations(g.eventId2), fs))
    ensures r.Err? <==> g.eventFile in fs && g.stationsFile in fs && g.dataDir !in fs
    ensures r.Err? ==> r.error == NoDataDir
    ensures r.Ok? && r.value.action.Process? ==> r.value.action == Process(g.eventId2, g.workDir, g.pklFile)
  {
    if g.eventFile !in fs then Ok(Step(SkipEvent(g.eventId2), fs))
    else if g.stationsFile !in fs then Ok(Step(SkipStations(g.eventId2), fs))
    else if g.dataDir !in fs then Err(NoDataDir)
    else Ok(Step(Process(g.eventId2, g.workDir, g.pklFile), fs + {g.workDir}))
  }

  /**
   * What an iteration does with the event of date d and magnitude t: a
   * missing event file or station file skips the event (the `continue`), a
   * missing mseed_data raises, and otherwise the event is processed in its
   * data directory with its pickle file.
   */
  function Visit(d: Date, t: nat, curDir: string, fs: set<string>): (r: Result<Step, Failure>)
    requires ValidDate(d)
    ensures Creates(r, fs)
    ensures r.Ok? ==> r.value.action.eventId2 == EventId2(d, t)
    ensures Join(curDir, EventFile(d, t)) !in fs ==> r == Ok(Step(SkipEvent(EventId2(d, t)), fs))
    ensures Join(curDir, EventFile(d, t)) in fs && Join(curDir, StationsFile(d, t)) !in fs ==>
      r == Ok(Step(SkipStations(EventId2(d, t)), fs))
    ensures r.Err? <==>
      Join(curDir, EventFile(d, t)) in fs && Join(curDir, StationsFile(d, t)) in fs && Join(curDir, MSEED_DATA_DIR) !in fs
    ensures r.Err? ==> r.error == NoDataDir
    ensures r.Ok? && r.value.action.Process? ==>
      r.value.action == Process(EventId2(d, t), EventDataDir(curDir, d, t), PklFile(curDir, d, t))
  {
    Decide(TargetsOf(d, t, curDir), fs)
  }

  /** One iteration of the loop, started from curDir in the filesystem fs; it creates at most its work directory. */
  function Entry(line: string, curDir: string, fs: set<string>): (r: Result<Step, Failure>)
    ensures Creates(r, fs)
    ensures ParseLine(line).Err? ==> r == Err(ParseLine(line).error)
    ensures ParseLine(line).Ok? ==> r == Visit(ParseLine(line).value.0, ParseLine(line).value.1, curDir, fs)
  {
    match ParseLine(line)
    case Err(e) => Err(e)
    case Ok((d, t)) => Visit(d, t, curDir, fs)
  }

  datatype BatchRun = BatchRun(actions: seq<Action>, fs: set<string>, failure: Option<Failure>)

  /** An iteration of a loop: from a line and the paths that exist, the step taken or the exception raised. */
  type Iteration = (string, set<string>) -> Result<Step, Failure>

  /** A loop over the entries with iteration it: one action per entry, until an entry raises. */
  function Run(entries: seq<string>, fs: set<string>, it: Iteration): BatchRun
    decreases |entries|
  {
    if entries == [] then BatchRun([], fs, None)
    else
      match it(entries[0], fs)
      case Err(e) => BatchRun([], fs, Some(e))
      case Ok(step) =>
        var rest := Run(entries[1..], step.fs, it);
        BatchRun([step.action] + rest.actions, rest.fs, rest.failure)
  }

  /** The iteration of the script, which starts from cur_dir every time. */
  function Iterate(curDir: string): Iteration
  {
    (line, fs) => Entry(line, curDir, fs)
  }

  /** The loop of the script over the entries. */
  function Batch(entries: seq<string>, curDir: string, fs: set<string>): BatchRun
  {
    Run(entries, fs, Iterate(curDir))
  }

  /** date_mag[1:]: the first line of the list is a header. */
  function Entries(lines: seq<string>): (r: seq<string>)
    ensures |lines| >= 1 ==> r == lines[1..]
    ensures |lines| == 0 ==> r == []
  {
    if lines == [] then [] else lines[1..]
  }

  /**
   * The __main__ loop, with the lines of in_file, the script's directory and
   * the existing paths; returns the actions taken, the paths existing at the
   * end and the exception that stopped the loop, if any.
   */
  method DownloadAll(lines: seq<string>, curDir: string, fs0: set<string>)
    returns (actions: seq<Action>, fs: set<string>, failure: Option<Failure>)
    ensures BatchRun(actions, fs, failure) == Batch(Entries(lines), curDir, fs0)
  {
    var entries := Entries(lines);
    actions, fs, failure := [], fs0, None;
    var i := 0;
    while i < |entries|
      invariant 0 <= i <= |entries|
      invariant failure == None
      invariant Batch(entries, curDir, fs0) ==
        var rest := Run(entries[i..], fs, Iterate(curDir));
        BatchRun(actions + rest.actions, rest.fs, rest.failure)
    {
      var r := EntryStep(entries[i], curDir, fs);
      if r.Err? {
        RunStops(entries, i, fs, actions, Iterate(curDir), r.error);
        failure := Some(r.error);
        return;
      }
      RunGoesOn(entries, i, fs, actions, Iterate(curDir), r.value);
      actions := actions + [r.value.action];
      fs := r.value.fs;
      i := i + 1;
    }
    assert entries[i..] == [];
  }

  /**
   * The body of the loop for one line: chdir to cur_dir, read the date and
   * the magnitude, then visit the event.
   */
  method EntryStep(line: string, curDir: string, fs0: set<string>) returns (r: Result<Step, Failure>)
    ensures r == Iterate(curDir)(line, fs0)
  {
    assert Iterate(curDir)(line, fs0) == Entry(line, curDir, fs0);
    var toks := Tokens(line, PY_WHITESPACE);
    if |toks| < 1 {
      return Err(NoDateField);
    }
    var dateStr := toks[0];
    if |toks| < 2 {
      return Err(NoMagnitudeField);
    }
    var mag := ParseMagnitude(toks[1]);
    if mag.None? {
      return Err(BadMagnitude(toks[1]));
    }
    var date := ParseSlashDate(dateStr);
    if date.None? {
      return Err(BadDate(dateStr));
    }
    var d, t := date.value, mag.value;
    assert ParseLine(line) == Ok((d, t));
    r := VisitStep(d, t, curDir, fs0);
  }

  /**
   * The rest of the body of the loop for the event of date d and magnitude t:
   * test for the event and station files, enter mseed_data and create the
   * event's directory when it is missing.
   */
  method VisitStep(d: Date, t: nat, curDir: string, fs0: set<string>) returns (r: Result<Step, Failure>)
    requires ValidDate(d)
    ensures r == Visit(d, t, curDir, fs0)
  {
    var fs := fs0;
    var cwd := curDir;
    var eventId2 := EventId2(d, t);
    var eventFilename := Join(EVENTS_DIR, EventId(d, t) + ".cmtsolution");
    var stationsFilename := Join(STATIONS_DIR, EventId(d, t) + "_receivers.dat");
    if Join(cwd, eventFilename) !in fs {
      return Ok(Step(SkipEvent(eventId2), fs));
    }
    if Join(cwd, stationsFilename) !in fs {
      return Ok(Step(SkipStations(eventId2), fs));
    }
    if Join(cwd, MSEED_DATA_DIR) !in fs {
      return Err(NoDataDir);
    }
    cwd := Join(cwd, MSEED_DATA_DIR);
    if Join(cwd, eventId2) !in fs {
      fs := fs + {Join(cwd, eventId2)};
    }
    cwd := Join(cwd, eventId2);
    var pklFilename := Join(curDir, PKL_DATA_DIR + "/" + eventId2 + ".pkl");
    assert cwd == EventDataDir(curDir, d, t);
    assert fs == fs0 + {cwd};
    return Ok(Step(Process(eventId2, cwd, pklFilename), fs));
  }

  /** An entry that raises ends the batch there. */
  lemma RunStops(entries: seq<string>, i: nat, fs: set<string>, actions: seq<Action>, it: Iteration, e: Failure)
    requires i < |entries| && it(entries[i], fs) == Err(e)
    ensures var rest := Run(entries[i..], fs, it);
      BatchRun(actions + rest.actions, rest.fs, rest.failure) == BatchRun(actions, fs, Some(e))
  {
    assert entries[i..][0] == entries[i];
    assert actions + [] == actions;
  }

  /** An entry that does not raise adds its action and the batch goes on with the next one. */
  lemma RunGoesOn(entries: seq<string>, i: nat, fs: set<string>, actions: seq<Action>, it: Iteration, step: Step)
    requires i < |entries| && it(entries[i], fs) == Ok(step)
    ensures var rest := Run(entries[i..], fs, it);
      var next := Run(entries[i + 1..], step.fs, it);
      BatchRun(actions + rest.actions, rest.fs, rest.failure) ==
      BatchRun((actions + [step.action]) + next.actions, next.fs, next.failure)
  {
    var tail := entries[i..];
    assert tail[0] == entries[i] && tail[1..] == entries[i + 1..];
    var next := Run(entries[i + 1..], step.fs, it);
    assert Run(tail, fs, it) == BatchRun([step.action] + next.actions, next.fs, next.failure);
    assert actions + ([step.action] + next.actions) == (actions + [step.action]) + next.actions;
  }

  // ---------------------------------------------------------------------
  // What the batch does, entry by entry

  /**
   * The action an entry gets, judged against the filesystem as it was before
   * the batch started: what a line leads to does not depend on the lines
   * before it.
   */
  function Expected(line: string, curDir: string, fs0: set<string>): Result<Action, Failure>
  {
    match Entry(line, curDir, fs0)
    case Err(e) => Err(e)
    case Ok(step) => Ok(step.action)
  }

  /** Expected as a function of the line. */
  function Expecting(curDir: string, fs0: set<string>): string -> Result<Action, Failure>
  {
    line => Expected(line, curDir, fs0)
  }

  /** The paths the batch creates: entries of JoinPrefix(curDir) + "mseed_data/". */
  predicate UnderDataDir(curDir: string, p: string)
  {
    var q := JoinPrefix(curDir) + MSEED_DATA_DIR + "/";
    |p| > |q| && p[..|q|] == q
  }

  /** fs is fs0 with some event data directories added. */
  predicate GrownBy(curDir: string, fs0: set<string>, fs: set<string>)
  {
    fs0 <= fs && forall p :: p in fs && p !in fs0 ==> UnderDataDir(curDir, p)
  }

  /** The paths an iteration tests are never created, and the one it creates is below the data directory. */
  predicate Separated(g: Targets, curDir: string)
  {
    !UnderDataDir(curDir, g.eventFile) && !UnderDataDir(curDir, g.stationsFile) &&
    !UnderDataDir(curDir, g.dataDir) && UnderDataDir(curDir, g.workDir)
  }

  /** A path below curDir whose relative part does not start with "mseed_data/" is not created. */
  lemma NotUnderDataDir(curDir: string, rel: string)
    requires rel != [] && rel[0] != 'm' && rel[0] != '/'
    ensures !UnderDataDir(curDir, Join(curDir, rel))
  {
    var pre := JoinPrefix(curDir);
    var q := pre + MSEED_DATA_DIR + "/";
    var p := Join(curDir, rel);
    assert p == pre + rel;
    assert |q| > |pre| && q[|pre|] == 'm';
    assert |p| > |pre| && p[|pre|] == rel[0];
    assert |p| > |q| ==> p[..|q|][|pre|] == p[|pre|];
  }

  /** A non-empty name below JoinPrefix(curDir) + "mseed_data/" is created there. */
  lemma InDataDir(curDir: string, id: string)
    requires id != []
    ensures UnderDataDir(curDir, JoinPrefix(curDir) + MSEED_DATA_DIR + "/" + id)
  {
    var q := JoinPrefix(curDir) + MSEED_DATA_DIR + "/";
    assert (q + id)[..|q|] == q;
  }

  /** The names of every event are separated: the event and station files and the data directory are never created. */
  lemma TargetsSeparated(d: Date, t: nat, curDir: string)
    requires ValidDate(d)
    ensures Separated(TargetsOf(d, t, curDir), curDir)
  {
    NotUnderDataDir(curDir, EventFile(d, t));
    NotUnderDataDir(curDir, StationsFile(d, t));
    assert Join(curDir, MSEED_DATA_DIR) == JoinPrefix(curDir) + MSEED_DATA_DIR;
    InDataDir(curDir, EventId2(d, t));
  }

  /**
   * The outcome r of an iteration agrees with x, what its line calls for on
   * the initial filesystem fs0: the same exception, or the same action and a
   * filesystem still grown from fs0 only by event data directories.
   */
  predicate Agrees(r: Result<Step, Failure>, x: Result<Action, Failure>, curDir: string, fs0: set<string>)
  {
    match r
    case Err(e) => x == Err(e)
    case Ok(step) => x == Ok(step.action) && GrownBy(curDir, fs0, step.fs)
  }

  /** The tests on separated names, run on a grown filesystem, decide as they do on the initial one. */
  lemma DecideAgainstInitial(g: Targets, curDir: string, fs0: set<string>, fs: set<string>)
    requires Separated(g, curDir)
    requires GrownBy(curDir, fs0, fs)
    ensures Agrees(Decide(g, fs), match Decide(g, fs0) case Err(e) => Err(e) case Ok(step) => Ok(step.action), curDir, fs0)
  {
    assert g.eventFile in fs <==> g.eventFile in fs0;
    assert g.stationsFile in fs <==> g.stationsFile in fs0;
    assert g.dataDir in fs <==> g.dataDir in fs0;
  }

  /** An iteration run on a grown filesystem does what Expected says of the initial one. */
  lemma EntryAgainstInitial(line: string, curDir: string, fs0: set<string>, fs: set<string>)
    requires GrownBy(curDir, fs0, fs)
    ensures Agrees(Entry(line, curDir, fs), Expected(line, curDir, fs0), curDir, fs0)
  {
    match ParseLine(line)
    case Err(e) =>
    case Ok((d, t)) =>
      TargetsSeparated(d, t, curDir);
      DecideAgainstInitial(TargetsOf(d, t, curDir), curDir, fs0, fs);
  }

  /**
   * A loop whose iteration agrees with wanted on every grown filesystem, entry
   * by entry: the k-th action is what wanted gives for the k-th entry, and the
   * loop stops early only at an entry for which wanted gives an exception.
   */
  lemma {:induction false} RunByEntry(entries: seq<string>, curDir: string, fs0: set<string>, fs: set<string>,
                                      it: Iteration, wanted: string -> Result<Action, Failure>)
    requires GrownBy(curDir, fs0, fs)
    requires forall line, other :: GrownBy(curDir, fs0, other) ==> Agrees(it(line, other), wanted(line), curDir, fs0)
    ensures var r := Run(entries, fs, it);
      |r.actions| <= |entries| &&
      GrownBy(curDir, fs0, r.fs) &&
      (forall k :: 0 <= k < |r.actions| ==> wanted(entries[k]) == Ok(r.actions[k])) &&
      (r.failure.None? ==> |r.actions| == |entries|) &&
      (r.failure.Some? ==> |r.actions| < |entries| && wanted(entries[|r.actions|]) == Err(r.failure.value))
  {
    if entries != [] {
      assert Agrees(it(entries[0], fs), wanted(entries[0]), curDir, fs0);
      match it(entries[0], fs)
      case Err(e) =>
      case Ok(step) =>
        RunByEntry(entries[1..], curDir, fs0, step.fs, it, wanted);
        var rest := Run(entries[1..], step.fs, it);
        forall k | 0 <= k < |rest.actions| + 1
          ensures wanted(entries[k]) == Ok(([step.action] + rest.actions)[k])
        {
          if k > 0 { assert entries[k] == entries[1..][k - 1]; }
        }
        if rest.failure.Some? {
          assert entries[|rest.actions| + 1] == entries[1..][|rest.actions|];
        }
    }
  }

  /**
   * The batch, entry by entry: the k-th action is what the k-th entry
   * (the (k+1)-th line) calls for, skipped entries do not stop the loop,
   * and the loop stops only at an entry that raises.
   */
  lemma BatchByEntry(entries: seq<string>, curDir: string, fs0: set<string>, fs: set<string>)
    requires GrownBy(curDir, fs0, fs)
    ensures var r := Batch(entries, curDir, fs);
      |r.actions| <= |entries| &&
      GrownBy(curDir, fs0, r.fs) &&
      (forall k :: 0 <= k < |r.actions| ==> Expected(entries[k], curDir, fs0) == Ok(r.actions[k])) &&
      (r.failure.None? ==> |r.actions| == |entries|) &&
      (r.failure.Some? ==> |r.actions| < |entries| &&
                           Expected(entries[|r.actions|], curDir, fs0) == Err(r.failure.value))
  {
    forall line, other | GrownBy(curDir, fs0, other)
      ensures Agrees(Iterate(curDir)(line, other), Expecting(curDir, fs0)(line), curDir, fs0)
    {
      EntryAgainstInitial(line, curDir, fs0, other);
    }
    RunByEntry(entries, curDir, fs0, fs, Iterate(curDir), Expecting(curDir, fs0));
  }

  /**
   * The batch at entry k, once it has got that far: an entry that raises
   * ends the batch there with its failure, and any other adds its action and
   * lets the batch go on past it.
   */
  lemma BatchAtEntry(entries: seq<string>, curDir: string, fs0: set<string>, k: nat)
    requires k < |entries| && |Batch(entries, curDir, fs0).actions| >= k
    ensures var r := Batch(entries, curDir, fs0);
      match Expected(entries[k], curDir, fs0)
      case Ok(a) => |r.actions| > k && r.actions[k] == a
      case Err(e) => |r.actions| == k && r.failure == Some(e)
  {
    BatchByEntry(entries, curDir, fs0, fs0);
  }

  /** A listed event whose event file or station file is missing is skipped, and the batch goes on past it. */
  lemma BatchSkipsMissingFiles(entries: seq<string>, curDir: string, fs0: set<string>, k: nat, d: Date, t: nat)
    requires k < |entries| && ParseLine(entries[k]) == Ok((d, t))
    requires Join(curDir, EventFile(d, t)) !in fs0 || Join(curDir, StationsFile(d, t)) !in fs0
    requires |Batch(entries, curDir, fs0).actions| >= k
    ensures var r := Batch(entries, curDir, fs0);
      |r.actions| > k &&
      r.actions[k] == if Join(curDir, EventFile(d, t)) !in fs0 then SkipEvent(EventId2(d, t)) else SkipStations(EventId2(d, t))
  {
    BatchAtEntry(entries, curDir, fs0, k);
  }

  /** A listed event whose files and mseed_data exist is processed in its data directory, with its pickle file. */
  lemma BatchProcesses(entries: seq<string>, curDir: string, fs0: set<string>, k: nat, d: Date, t: nat)
    requires k < |entries| && ParseLine(entries[k]) == Ok((d, t))
    requires Join(curDir, EventFile(d, t)) in fs0 && Join(curDir, StationsFile(d, t)) in fs0
    requires Join(curDir, MSEED_DATA_DIR) in fs0
    requires |Batch(entries, curDir, fs0).actions| >= k
    ensures var r := Batch(entries, curDir, fs0);
      |r.actions| > k && r.actions[k] == Process(EventId2(d, t), EventDataDir(curDir, d, t), PklFile(curDir, d, t))
  {
    BatchAtEntry(entries, curDir, fs0, k);
  }

  /** A listed event whose files exist while mseed_data does not ends the batch with NoDataDir. */
  lemma BatchStopsWithoutDataDir(entries: seq<string>, curDir: string, fs0: set<string>, k: nat, d: Date, t: nat)
    requires k < |entries| && ParseLine(entries[k]) == Ok((d, t))
    requires Join(curDir, EventFile(d, t)) in fs0 && Join(curDir, StationsFile(d, t)) in fs0
    requires Join(curDir, MSEED_DATA_DIR) !in fs0
    requires |Batch(entries, curDir, fs0).actions| >= k
    ensures var r := Batch(entries, curDir, fs0);
      |r.actions| == k && r.failure == Some(NoDataDir)
  {
    var v := Visit(d, t, curDir, fs0);
    assert v == Err(NoDataDir);
    assert Entry(entries[k], curDir, fs0) == v;
    BatchAtEntry(entries, curDir, fs0, k);
  }

  /** A line that cannot be read ends the batch with its failure. */
  lemma BatchStopsAtBadLine(entries: seq<string>, curDir: string, fs0: set<string>, k: nat)
    requires k < |entries| && ParseLine(entries[k]).Err?
    requires |Batch(entries, curDir, fs0).actions| >= k
    ensures var r := Batch(entries, curDir, fs0);
      |r.actions| == k && r.failure == Some(ParseLine(entries[k]).error)
  {
    BatchAtEntry(entries, curDir, fs0, k);
  }

  /** The working directories of the processed entries. */
  function WorkDirs(actions: seq<Action>): set<string>
  {
    if actions == [] then {}
    else (if actions[0].Process? then {actions[0].workDir} else {}) + WorkDirs(actions[1..])
  }

  /** The outcome r of an iteration on fs adds the working directory of a processed entry and nothing else. */
  predicate Creates(r: Result<Step, Failure>, fs: set<string>)
  {
    r.Ok? ==> r.value.fs == fs + (if r.value.action.Process? then {r.value.action.workDir} else {})
  }

  /** A loop whose iterations create only working directories ends with those of its processed entries added. */
  lemma {:induction false} RunCreates(entries: seq<string>, fs: set<string>, it: Iteration)
    requires forall line, other :: Creates(it(line, other), other)
    ensures Run(entries, fs, it).fs == fs + WorkDirs(Run(entries, fs, it).actions)
  {
    if entries != [] {
      assert Creates(it(entries[0], fs), fs);
      match it(entries[0], fs)
      case Err(e) =>
      case Ok(step) =>
        RunCreates(entries[1..], step.fs, it);
        var rest := Run(entries[1..], step.fs, it);
        assert ([step.action] + rest.actions)[1..] == rest.actions;
    }
  }

  /** The paths at the end are the initial ones and the data directories of the processed entries. */
  lemma BatchCreates(entries: seq<string>, curDir: string, fs: set<string>)
    ensures Batch(entries, curDir, fs).fs == fs + WorkDirs(Batch(entries, curDir, fs).actions)
  {
    assert forall line, other :: Creates(Iterate(curDir)(line, other), other);
    RunCreates(entries, fs, Iterate(curDir));
  }
}
