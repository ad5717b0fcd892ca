/**
 * The great-circle map script: for every file of obspy_pkl_data whose name
 * holds an event id 2, one call of the map program on the event's CMT
 * solution and the receivers.dat written beside its waveforms, with
 * great_circles_figures/<event id 2>_map_GC.png as output.
 */
module MapGreatCircleAllEvents {
  import opened Wrappers
  import opened Text
  import opened Paths
  import opened EventIds
  import opened EventIdPattern
  import DownloadAllEvents

  const OUT_FIG_DIR := "great_circles_figures"
  const PLOT_FILE := "/home/gcl/BR/sbrisson/bsl_internship_toolbox/plotting/A3Dmodel_map_greatCircles.py"

  /** The station table conversion writes first into the event's data directory. */
  const RECEIVERS_FILE := "receivers.dat"

  /** os.path.join(mseed_data_dir, f"{event_id2}/receivers.dat"): the receivers file of the event's data directory. */
  function ReceiversFile(d: Date, t: nat): (r: string)
    requires ValidDate(d)
    ensures r == DownloadAllEvents.MSEED_DATA_DIR + "/" + EventId2(d, t) + "/" + RECEIVERS_FILE
  {
    ReceiversRelative(EventId2(d, t));
    Join(DownloadAllEvents.MSEED_DATA_DIR, EventId2(d, t) + "/" + RECEIVERS_FILE)
  }

  /** os.path.join(out_fig_dir, f"{event_id2}_map_GC.png"): the map of the event in great_circles_figures. */
  function OutFile(d: Date, t: nat): (r: string)
    requires ValidDate(d)
    ensures r == OUT_FIG_DIR + "/" + EventId2(d, t) + "_map_GC.png"
  {
    DownloadAllEvents.NamedBelow(OUT_FIG_DIR, EventId2(d, t), "_map_GC.png");
    Join(OUT_FIG_DIR, EventId2(d, t) + "_map_GC.png")
  }

  /** The arguments of the map program for the event file ev, the receivers file rec and the map out. */
  function Arguments(ev: string, rec: string, out: string): (r: seq<string>)
    ensures |r| == 8 && r[0] == PLOT_FILE && r[1] == "--event" && r[2] == ev
    ensures r[3] == "--receivers" && r[4] == rec && r[5] == "-o" && r[6] == out
  {
    [PLOT_FILE, "--event", ev, "--receivers", rec, "-o", out, "--hotspots"]
  }

  /**
   * The argument list handed to subprocess.call for one event: the event file
   * the batch driver looked for after "--event", the event's receivers file
   * after "--receivers" and its map after "-o".
   */
  function PlotCommand(d: Date, t: nat): (r: seq<string>)
    requires ValidDate(d)
    ensures |r| == 8 && r[0] == PLOT_FILE
    ensures r[1] == "--event" && r[2] == DownloadAllEvents.EventFile(d, t)
    ensures r[3] == "--receivers" && r[4] == ReceiversFile(d, t)
    ensures r[5] == "-o" && r[6] == OutFile(d, t)
  {
    Arguments(DownloadAllEvents.EventFile(d, t), ReceiversFile(d, t), OutFile(d, t))
  }

  /** PlotCommand as a value, handed to the loop over the listing. */
  const COMMAND: (Date, nat) --> seq<string> := (d: Date, t: nat) requires ValidDate(d) => PlotCommand(d, t)

  /** The command of each event, in order. */
  function PlotCommands(events: seq<(Date, nat)>): seq<seq<string>>
    requires forall k :: 0 <= k < |events| ==> Plottable(events[k])
  {
    assert forall k :: 0 <= k < |events| ==> Plottable(events[k]) && COMMAND.requires(events[k].0, events[k].1);
    MapEvents(events, COMMAND)
  }

  /**
   * The __main__ loop over the names of obspy_pkl_data: one command per name
   * that yields an event, in listing order, until a name whose date raises.
   */
  method PlotAll(names: seq<string>) returns (commands: seq<seq<string>>, stop: Option<Groups>)
    ensures var scan := ScanNames(names);
      commands == PlotCommands(scan.events) && stop == scan.stop
  {
    commands, stop := CommandsOfListing(names, COMMAND);
  }

  /**
   * Below the directory the batch driver ran in, the receivers file is the
   * receivers.dat of the event's data directory.
   */
  lemma ReceiversFileInDataDir(curDir: string, d: Date, t: nat)
    requires ValidDate(d)
    ensures Join(curDir, ReceiversFile(d, t)) == Join(DownloadAllEvents.EventDataDir(curDir, d, t), RECEIVERS_FILE)
  {
    ReceiversBelow(curDir, EventId2(d, t));
  }

  /** The receivers file of an id that starts with a digit, below mseed_data. */
  lemma ReceiversRelative(id: string)
    requires id != [] && IsDigit(id[0])
    ensures Join(DownloadAllEvents.MSEED_DATA_DIR, id + "/" + RECEIVERS_FILE) ==
      DownloadAllEvents.MSEED_DATA_DIR + "/" + id + "/" + RECEIVERS_FILE
  {
    var rel := id + "/" + RECEIVERS_FILE;
    assert rel[0] == id[0];
    assert DownloadAllEvents.MSEED_DATA_DIR + "/" + rel == DownloadAllEvents.MSEED_DATA_DIR + "/" + id + "/" + RECEIVERS_FILE;
  }

  /** Read from curDir, the receivers file of an id ending with a digit is the one in the id's directory. */
  lemma ReceiversBelow(curDir: string, id: string)
    requires id != [] && IsDigit(id[|id| - 1])
    ensures Join(curDir, DownloadAllEvents.MSEED_DATA_DIR + "/" + id + "/" + RECEIVERS_FILE) ==
      Join(JoinPrefix(curDir) + DownloadAllEvents.MSEED_DATA_DIR + "/" + id, RECEIVERS_FILE)
  {
    var m := DownloadAllEvents.MSEED_DATA_DIR;
    var dir := JoinPrefix(curDir) + m + "/" + id;
    assert dir[|dir| - 1] == id[|id| - 1];
    assert JoinPrefix(curDir) + (m + "/" + id + "/" + RECEIVERS_FILE) == dir + "/" + RECEIVERS_FILE;
  }

  /** Different events are drawn into different maps. */
  lemma OutFilesDistinct(d: Date, t: nat, d': Date, t': nat)
    requires ValidDate(d) && ValidDate(d')
    requires (d, t) != (d', t')
    ensures OutFile(d, t) != OutFile(d', t')
  {
    var a, b := EventId2(d, t), EventId2(d', t');
    if a == b { EventId2Injective(d, t, d', t'); }
    NamesApart(OUT_FIG_DIR, a, b, "_map_GC.png");
  }
}
