/**
 * The azimuthal record-section script: for every file of obspy_pkl_data
 * whose name holds an event id 2, one call of the plotting program on that
 * event's pickle, with the S-phase options and wf_figures/<event id 2>_wf_S.png
 * as output.  The listing is a parameter and the calls are returned as
 * argument lists.
 */
module WaveformsAzRecordSections {
  import opened Wrappers
  import opened Paths
  import opened EventIds
  import opened EventIdPattern
  import DownloadAllEvents

  const OUT_FIG_DIR := "wf_figures"
  const PLOT_FILE := "/home/gcl/BR/sbrisson/bsl_internship_toolbox/plotting/waveforms_recordSection_azimuth.py"

  /** os.path.join(pkl_data_dir, f"{event_id2}.pkl"): the pickle of the event in obspy_pkl_data. */
  function WfFile(d: Date, t: nat): (r: string)
    requires ValidDate(d)
    ensures r == DownloadAllEvents.PKL_DATA_DIR + "/" + EventId2(d, t) + ".pkl"
  {
    DownloadAllEvents.NamedBelow(DownloadAllEvents.PKL_DATA_DIR, EventId2(d, t), ".pkl");
    Join(DownloadAllEvents.PKL_DATA_DIR, EventId2(d, t) + ".pkl")
  }

  /** os.path.join(out_fig_dir, f"{event_id2}_wf_S.png"): the S figure of the event in wf_figures. */
  function OutFileS(d: Date, t: nat): (r: string)
    requires ValidDate(d)
    ensures r == OUT_FIG_DIR + "/" + EventId2(d, t) + "_wf_S.png"
  {
    DownloadAllEvents.NamedBelow(OUT_FIG_DIR, EventId2(d, t), "_wf_S.png");
    Join(OUT_FIG_DIR, EventId2(d, t) + "_wf_S.png")
  }

  /** os.path.join(out_fig_dir, f"{event_id2}_wf_sS.png"): the sS figure of the event in wf_figures. */
  function OutFileSS(d: Date, t: nat): (r: string)
    requires ValidDate(d)
    ensures r == OUT_FIG_DIR + "/" + EventId2(d, t) + "_wf_sS.png"
  {
    DownloadAllEvents.NamedBelow(OUT_FIG_DIR, EventId2(d, t), "_wf_sS.png");
    Join(OUT_FIG_DIR, EventId2(d, t) + "_wf_sS.png")
  }

  /** The arguments of the plotting program for the pickle wf and the figure out. */
  function Arguments(wf: string, out: string): (r: seq<string>)
    ensures |r| == 22 && r[0] == PLOT_FILE && r[1] == wf && r[18] == "-o" && r[19] == out
  {
    [PLOT_FILE, wf, "-c", "T", "--phase-ref", "S", "Sdiff", "--norm", "trace",
     "--event-metadata", "-t", "-20", "100", "--phases", "S", "Sdiff", "sS", "sSdiff",
     "-o", out, "-s", "5"]
  }

  /**
   * The argument list handed to subprocess.call for one event: the program,
   * the event's pickle as its first argument, the S-phase options, and the S
   * figure after "-o".
   */
  function PlotCommand(d: Date, t: nat): (r: seq<string>)
    requires ValidDate(d)
    ensures |r| == 22 && r[0] == PLOT_FILE && r[1] == WfFile(d, t)
    ensures r[18] == "-o" && r[19] == OutFileS(d, t)
  {
    Arguments(WfFile(d, t), OutFileS(d, t))
  }

  /** PlotCommand as a value, handed to the loop over the listing. */
  const COMMAND: (Date, nat) --> seq<string> := (d: Date, t: nat) requires ValidDate(d) => PlotCommand(d, t)

  /** The command of each event, in order. */
  function PlotCommands(events: seq<(Date, nat)>): seq<seq<string>>
    requires forall k :: 0 <= k < |events| ==> Plottable(events[k])
  {
    assert forall k :: 0 <= k < |events| ==> Plottable(events[k]) && COMMAND.requires(events[k].0, events[k].1);
    MapEvents(events, COMMAND)
  }

  /**
   * The __main__ loop over the names of obspy_pkl_data: one command per name
   * that yields an event, in listing order, until a name whose date raises.
   */
  method PlotAll(names: seq<string>) returns (commands: seq<seq<string>>, stop: Option<Groups>)
    ensures var scan := ScanNames(names);
      commands == PlotCommands(scan.events) && stop == scan.stop
  {
    commands, stop := CommandsOfListing(names, COMMAND);
  }

  /** The pickle the plot reads is, below the same directory, the one the batch driver wrote. */
  lemma WfFileIsPklFile(curDir: string, d: Date, t: nat)
    requires ValidDate(d)
    ensures Join(curDir, WfFile(d, t)) == DownloadAllEvents.PklFile(curDir, d, t)
  {
    var id := EventId2(d, t);
    assert WfFile(d, t) == DownloadAllEvents.PKL_DATA_DIR + "/" + id + ".pkl";
    DownloadAllEvents.PklFileOf(curDir, id);
  }

  /** Listing a pickle of the batch driver plots that very pickle. */
  lemma PlotsListedPickle(d: Date, t: nat)
    requires Plottable((d, t))
    ensures var f := EventId2(d, t) + ".pkl";
      ParseName(f) == Event(d, t) && WfFile(d, t) == Join(DownloadAllEvents.PKL_DATA_DIR, f)
  {
    ParseNameOfEventId2(d, t, ".pkl");
  }

  /** Different events are drawn into different figures. */
  lemma OutFilesDistinct(d: Date, t: nat, d': Date, t': nat)
    requires ValidDate(d) && ValidDate(d')
    requires (d, t) != (d', t')
    ensures OutFileS(d, t) != OutFileS(d', t')
    ensures OutFileSS(d, t) != OutFileSS(d', t')
  {
    var a, b := EventId2(d, t), EventId2(d', t');
    if a == b { EventId2Injective(d, t, d', t'); }
    NamesApart(OUT_FIG_DIR, a, b, "_wf_S.png");
    NamesApart(OUT_FIG_DIR, a, b, "_wf_sS.png");
  }
}
