/**
 * The station table that the conversion step writes beside the waveforms of
 * an event: it picks the first free name among receivers.dat,
 * receivers.dat.1, receivers.dat.2, ... and writes a three-line header and
 * one fixed-width row per station of the inventory, network by network.
 *
 * The inventory is a sequence of networks, each with its stations; latitude
 * and longitude are kept as the text their "8.4f" formatting produces.
 */
module Mseed2ObspyStream {
  import opened Text

  // ---------------------------------------------------------------------
  // Choosing the output name

  const RECEIVERS_BASE := "receivers.dat"

  /** The name tried after k names were taken: the base, then base + "." + str(k). */
  function Candidate(k: nat): string
  {
    if k == 0 then RECEIVERS_BASE else RECEIVERS_BASE + "." + Decimal(k)
  }

  /** Different tries give different names. */
  lemma CandidatesDistinct(j: nat, k: nat)
    requires j != k
    ensures Candidate(j) != Candidate(k)
  {
    if j != 0 && k != 0 {
      var n := |RECEIVERS_BASE| + 1;
      assert Candidate(j)[n..] == Decimal(j);
      assert Candidate(k)[n..] == Decimal(k);
    }
  }

  /**
   * The while loop over os.path.exists, with the existing paths of the
   * working directory as a finite set; n is the script's counter when the
   * loop ends.  The chosen name is free, and every name tried before it exists.
   */
  method ChooseReceiversFile(existing: set<string>) returns (name: string, n: nat)
    ensures name !in existing
    ensures n >= 1 && name == Candidate(n - 1)
    ensures forall j :: 0 <= j < n - 1 ==> Candidate(j) in existing
  {
    name := RECEIVERS_BASE;
    n := 1;
    ghost var tried: set<string> := {};
    while name in existing
      invariant n >= 1 && name == Candidate(n - 1)
      invariant forall j :: 0 <= j < n - 1 ==> Candidate(j) in existing
      invariant tried == CandidateSet(n - 1) && tried <= existing
      decreases existing - tried
    {
      CandidateSetExcludes(n - 1, n - 1);
      tried := tried + {name};
      name := RECEIVERS_BASE + "." + Decimal(n);
      n := n + 1;
    }
  }

  /** The first k names tried. */
  function CandidateSet(k: nat): set<string>
  {
    if k == 0 then {} else CandidateSet(k - 1) + {Candidate(k - 1)}
  }

  /** A later try is none of the earlier ones. */
  lemma {:induction false} CandidateSetExcludes(k: nat, m: nat)
    requires k <= m
    ensures Candidate(m) !in CandidateSet(k)
  {
    if k > 0 {
      CandidateSetExcludes(k - 1, m);
      CandidatesDistinct(k - 1, m);
    }
  }

  /** The name chosen is receivers.dat exactly when that one is free. */
  lemma ChosenBase(existing: set<string>, name: string, n: nat)
    requires name !in existing && n >= 1 && name == Candidate(n - 1)
    requires forall j :: 0 <= j < n - 1 ==> Candidate(j) in existing
    ensures (name == RECEIVERS_BASE) == (RECEIVERS_BASE !in existing)
  {
    if n > 1 {
      assert Candidate(0) in existing;
      CandidatesDistinct(0, n - 1);
    }
  }

  // ---------------------------------------------------------------------
  // The station table

  datatype InvStation = InvStation(code: string, latitude: string, longitude: string)
  datatype Network = Network(code: string, stations: seq<InvStation>)

  const COUNT_LABEL := "Number of stations is:"
  const COLUMNS_LINE := "nw stn lat lon:"

  /** f"{nw_code:<2} {code[:4]:<4} {lat:8.4f}  {lon:8.4f}". */
  function ReceiverRow(nw: string, s: InvStation): string
  {
    PadRight(nw, 2, ' ') + " " + PadRight(Take(s.code, 4), 4, ' ') + " " + s.latitude + "  " + s.longitude
  }

  /** The stations of one network, each with the network's code. */
  function Pairs(nw: Network): (r: seq<(string, InvStation)>)
    ensures |r| == |nw.stations|
    ensures forall k :: 0 <= k < |r| ==> r[k] == (nw.code, nw.stations[k])
  {
    seq(|nw.stations|, k requires 0 <= k < |nw.stations| => (nw.code, nw.stations[k]))
  }

  /** The stations in the order of the nested loops: networks in order, stations in order within each. */
  function Flat(nets: seq<Network>): seq<(string, InvStation)>
  {
    if nets == [] then [] else Pairs(nets[0]) + Flat(nets[1..])
  }

  function TotalStations(nets: seq<Network>): nat
  {
    if nets == [] then 0 else |nets[0].stations| + TotalStations(nets[1..])
  }

  function RowsOf(pairs: seq<(string, InvStation)>): (r: seq<string>)
    ensures |r| == |pairs|
    ensures forall k :: 0 <= k < |r| ==> r[k] == ReceiverRow(pairs[k].0, pairs[k].1)
  {
    seq(|pairs|, k requires 0 <= k < |pairs| => ReceiverRow(pairs[k].0, pairs[k].1))
  }

  /** len(stations2) is the number of networks of the inventory. */
  function Header(nets: seq<Network>): seq<string>
  {
    [COUNT_LABEL, Decimal(|nets|), COLUMNS_LINE]
  }

  function ReceiversLines(nets: seq<Network>): seq<string>
  {
    Header(nets) + RowsOf(Flat(nets))
  }

  /**
   * The with-open block: the header written by writelines, then one row per
   * station from the nested for loops.
   */
  method WriteReceivers(nets: seq<Network>) returns (text: string)
    ensures text == Unlines(ReceiversLines(nets))
  {
    var header := Header(nets);
    text := Unlines(header);
    assert header + RowsOf(Flat(nets[..0])) == header;
    var i := 0;
    while i < |nets|
      invariant 0 <= i <= |nets|
      invariant text == Unlines(header + RowsOf(Flat(nets[..i])))
    {
      var nw := nets[i];
      ghost var done := Flat(nets[..i]);
      var j := 0;
      assert done + Pairs(nw)[..0] == done;
      while j < |nw.stations|
        invariant 0 <= j <= |nw.stations|
        invariant text == Unlines(header + RowsOf(done + Pairs(nw)[..j]))
      {
        var stn := nw.stations[j];
        var row := ReceiverRow(nw.code, stn);
        RowsOfSnoc(done + Pairs(nw)[..j], (nw.code, stn));
        assert Pairs(nw)[..j + 1] == Pairs(nw)[..j] + [(nw.code, stn)];
        assert done + Pairs(nw)[..j + 1] == (done + Pairs(nw)[..j]) + [(nw.code, stn)];
        UnlinesSnoc(header + RowsOf(done + Pairs(nw)[..j]), row);
        assert header + RowsOf(done + Pairs(nw)[..j]) + [row] == header + (RowsOf(done + Pairs(nw)[..j]) + [row]);
        text := text + row + "\n";
        j := j + 1;
      }
      assert Pairs(nw)[..j] == Pairs(nw);
      FlatSnoc(nets, i);
      i := i + 1;
    }
    assert nets[..i] == nets;
  }

  lemma RowsOfSnoc(pairs: seq<(string, InvStation)>, p: (string, InvStation))
    ensures RowsOf(pairs + [p]) == RowsOf(pairs) + [ReceiverRow(p.0, p.1)]
  {
    var all := pairs + [p];
    assert forall k :: 0 <= k < |pairs| ==> all[k] == pairs[k];
  }

  lemma {:induction false} FlatAppend(a: seq<Network>, b: seq<Network>)
    ensures Flat(a + b) == Flat(a) + Flat(b)
  {
    if a == [] {
      assert a + b == b;
    } else {
      assert (a + b)[0] == a[0] && (a + b)[1..] == a[1..] + b;
      FlatAppend(a[1..], b);
    }
  }

  lemma FlatSnoc(nets: seq<Network>, i: nat)
    requires i < |nets|
    ensures Flat(nets[..i + 1]) == Flat(nets[..i]) + Pairs(nets[i])
  {
    assert nets[..i + 1] == nets[..i] + [nets[i]];
    FlatAppend(nets[..i], [nets[i]]);
    assert Flat([nets[i]]) == Pairs(nets[i]) + Flat([]);
  }

  // ---------------------------------------------------------------------
  // What the table holds

  /** Three header lines, then one row per station of every network. */
  lemma {:induction false} FlatLength(nets: seq<Network>)
    ensures |Flat(nets)| == TotalStations(nets)
  {
    if nets != [] {
      FlatLength(nets[1..]);
    }
  }

  lemma ReceiversLineCount(nets: seq<Network>)
    ensures |ReceiversLines(nets)| == 3 + TotalStations(nets)
  {
    FlatLength(nets);
  }

  /**
   * Station j of network i is written on row TotalStations(nets[..i]) + j:
   * rows follow the networks in order and the stations in order within each.
   */
  lemma {:induction false} FlatOrder(nets: seq<Network>, i: nat, j: nat)
    requires i < |nets| && j < |nets[i].stations|
    ensures TotalStations(nets[..i]) + j < |Flat(nets)|
    ensures Flat(nets)[TotalStations(nets[..i]) + j] == (nets[i].code, nets[i].stations[j])
  {
    FlatLength(nets);
    if i == 0 {
      assert nets[..0] == [];
    } else {
      var tail := nets[1..];
      assert tail[i - 1] == nets[i];
      FlatOrder(tail, i - 1, j);
      assert nets[..i][0] == nets[0] && nets[..i][1..] == tail[..i - 1];
      assert TotalStations(nets[..i]) == |nets[0].stations| + TotalStations(tail[..i - 1]);
      assert Flat(nets) == Pairs(nets[0]) + Flat(tail);
    }
  }

  /** The count line holds the number of networks, not the number of rows. */
  lemma HeaderCountsNetworks(nets: seq<Network>)
    ensures ReceiversLines(nets)[0] == COUNT_LABEL && ReceiversLines(nets)[2] == COLUMNS_LINE
    ensures AllDigits(ReceiversLines(nets)[1]) && DigitsValue(ReceiversLines(nets)[1]) == |nets|
  {
  }

  /** One network of two stations: the count line says 1 above two rows. */
  lemma HeaderCountDiffersFromRows(a: InvStation, b: InvStation)
    ensures var nets := [Network("G", [a, b])];
      DigitsValue(ReceiversLines(nets)[1]) == 1 && |ReceiversLines(nets)| - 3 == 2
  {
    var nets := [Network("G", [a, b])];
    assert Flat(nets) == Pairs(nets[0]) + Flat([]);
  }

  /**
   * A row is the network code, space padded to two characters and never cut,
   * a space, the first four characters of the station code space padded to
   * exactly four, a space, the latitude, two spaces and the longitude.
   */
  lemma ReceiverRowLayout(nw: string, s: InvStation)
    ensures var w := if |nw| < 2 then 2 else |nw|;
      |ReceiverRow(nw, s)| == w + 8 + |s.latitude| + |s.longitude|
    ensures ReceiverRow(nw, s)[..|nw|] == nw
    ensures var w := if |nw| < 2 then 2 else |nw|;
      forall k :: |nw| <= k < w ==> ReceiverRow(nw, s)[k] == ' '
    ensures var w := if |nw| < 2 then 2 else |nw|; var code := Take(s.code, 4);
      ReceiverRow(nw, s)[w] == ' ' && ReceiverRow(nw, s)[w + 1..w + 1 + |code|] == code &&
      (forall k :: w + 1 + |code| <= k < w + 5 ==> ReceiverRow(nw, s)[k] == ' ') && ReceiverRow(nw, s)[w + 5] == ' '
    ensures var w := if |nw| < 2 then 2 else |nw|; var r := ReceiverRow(nw, s);
      r[w + 6..w + 6 + |s.latitude|] == s.latitude &&
      r[w + 6 + |s.latitude|..w + 8 + |s.latitude|] == "  " &&
      r[w + 8 + |s.latitude|..] == s.longitude
  {
    var a := PadRight(nw, 2, ' ');
    var code := Take(s.code, 4);
    var c := PadRight(code, 4, ' ');
    var r := ReceiverRow(nw, s);
    var w := |a|;
    RowPieces(a, c, s.latitude, s.longitude);
    assert r[..|nw|] == r[..w][..|nw|];
    assert forall k :: |nw| <= k < w ==> r[k] == r[..w][k];
    assert r[w + 1..w + 1 + |code|] == r[w + 1..w + 5][..|code|];
    assert forall k :: w + 1 + |code| <= k < w + 5 ==> r[k] == r[w + 1..w + 5][k - w - 1];
  }

  /** Where the four fields of a row and the separators between them lie. */
  lemma RowPieces(a: string, c: string, x: string, y: string)
    requires |c| == 4
    ensures var r := a + " " + c + " " + x + "  " + y; var w := |a|;
      |r| == w + 8 + |x| + |y| && r[..w] == a && r[w] == ' ' && r[w + 1..w + 5] == c &&
      r[w + 5] == ' ' && r[w + 6..w + 6 + |x|] == x && r[w + 6 + |x|..w + 8 + |x|] == "  " &&
      r[w + 8 + |x|..] == y
  {
  }
}
