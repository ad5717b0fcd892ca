/**
 * The station table ("receivers.dat"): rows of station code, network code,
 * latitude and longitude, written as fixed-width text with underscores
 * padding the codes, and read back the way pandas.read_csv(header=2,
 * sep="\s+") reads it.  Latitude and longitude are carried as the text
 * they are printed as.
 */
module StationInventory {
  import opened Wrappers
  import opened Text

  /** MyStation. */
  datatype Station = Station(code: string, nw: string, lat: string, lon: string)

  /** Separators between the fields of a line ('\s+' as pandas' C parser applies it). */
  const FIELD_BLANKS: set<char> := {' ', '\t'}

  /** Characters that end a line for pandas. */
  const LINE_BREAKS: set<char> := {'\n', '\r'}

  const COUNT_LABEL := "Nombre de stations:"
  const COLUMNS_LINE := "nw stn lat lon:"

  // ---------------------------------------------------------------------
  // Writing

  /** One table row: the network code padded with '_' to 2, the station code to 5. */
  function RowLine(s: Station): string
  {
    PadRight(s.nw, 2, '_') + " " + PadRight(s.code, 5, '_') + " " + s.lat + " " + s.lon
  }

  function RowLines(rows: seq<Station>): (r: seq<string>)
    ensures |r| == |rows|
    ensures forall k :: 0 <= k < |rows| ==> r[k] == RowLine(rows[k])
  {
    seq(|rows|, k requires 0 <= k < |rows| => RowLine(rows[k]))
  }

  /** The lines of the file: a label, the number of rows, the column names, then one line per row. */
  function DatLines(rows: seq<Station>): seq<string>
  {
    [COUNT_LABEL, Decimal(|rows|), COLUMNS_LINE] + RowLines(rows)
  }

  /** The whole file as MyInventory.write leaves it. */
  function DatText(rows: seq<Station>): string
  {
    Unlines(DatLines(rows))
  }

  // ---------------------------------------------------------------------
  // Reading

  /** The field lists of the lines, blank lines left out (pandas' skip_blank_lines). */
  function Records(lines: seq<string>): (r: seq<seq<string>>)
    ensures |r| <= |lines|
    ensures forall k :: 0 <= k < |r| ==> r[k] != []
  {
    if lines == [] then []
    else
      var f := Tokens(lines[0], FIELD_BLANKS);
      (if f == [] then [] else [f]) + Records(lines[1..])
  }

  function DatRecords(text: string): seq<seq<string>>
  {
    Records(Tokens(text, LINE_BREAKS))
  }

  /** df.rename(columns = {'stn':'code', 'lon:':'lon'}) on one column name. */
  function RenameColumn(c: string): (r: string)
    ensures r == "code" <==> c == "stn" || c == "code"
    ensures r == "lon" <==> c == "lon:" || c == "lon"
    ensures c != "stn" && c != "lon:" ==> r == c
  {
    if c == "stn" then "code" else if c == "lon:" then "lon" else c
  }

  function RenameColumns(cols: seq<string>): (r: seq<string>)
    ensures |r| == |cols|
    ensures forall k :: 0 <= k < |cols| ==> r[k] == RenameColumn(cols[k])
  {
    seq(|cols|, k requires 0 <= k < |cols| => RenameColumn(cols[k]))
  }

  datatype DatError =
    | FileNotFound           // open() raises FileNotFoundError
    | MissingHeader          // fewer than three non-blank lines
    | RowWidth(row: nat)     // data row `row` does not have one field per column
    | MissingColumn(name: string)  // df[name] raises KeyError

  /** The column names of a file with a header line, renamed. */
  function DatColumns(text: string): seq<string>
    requires |DatRecords(text)| >= 3
  {
    RenameColumns(DatRecords(text)[2])
  }

  /** The index of the first row whose number of fields is not width, or |rows|. */
  function FirstBadWidth(rows: seq<seq<string>>, width: nat): (k: nat)
    ensures k <= |rows|
    ensures forall j :: 0 <= j < k ==> |rows[j]| == width
    ensures k < |rows| ==> |rows[k]| != width
  {
    if rows == [] || |rows[0]| != width then 0 else 1 + FirstBadWidth(rows[1..], width)
  }

  predicate HasColumns(cols: seq<string>)
  {
    "code" in cols && "nw" in cols && "lat" in cols && "lon" in cols
  }

  /** The station of one data row, each value taken from the first column of that name. */
  function StationOf(cols: seq<string>, rec: seq<string>): (s: Station)
    requires HasColumns(cols) && |rec| == |cols|
    ensures '_' !in s.code && '_' !in s.nw
  {
    Station(RemoveAll(rec[Find(cols, "code")], '_'), RemoveAll(rec[Find(cols, "nw")], '_'),
            rec[Find(cols, "lat")], rec[Find(cols, "lon")])
  }

  /**
   * MyInventory.read_fromDat on the text of a file: the third non-blank line
   * names the columns (renamed), every later non-blank line is a row, and the
   * station and network codes lose their underscores.
   */
  function ParseDat(text: string): (r: Result<seq<Station>, DatError>)
    ensures (r == Err(MissingHeader)) == (|DatRecords(text)| < 3)
    ensures r.Ok? ==>
      var recs := DatRecords(text);
      var cols := DatColumns(text);
      HasColumns(cols) && |r.value| == |recs| - 3 &&
      forall k :: 0 <= k < |r.value| ==> |recs[3 + k]| == |cols| && r.value[k] == StationOf(cols, recs[3 + k])
    ensures r.Ok? ==> forall k :: 0 <= k < |r.value| ==> '_' !in r.value[k].code && '_' !in r.value[k].nw
  {
    var recs := DatRecords(text);
    if |recs| < 3 then Err(MissingHeader)
    else
      var cols := DatColumns(text);
      var data := recs[3..];
      var bad := FirstBadWidth(data, |cols|);
      if bad < |data| then Err(RowWidth(bad))
      else if "code" !in cols then Err(MissingColumn("code"))
      else if "nw" !in cols then Err(MissingColumn("nw"))
      else if "lat" !in cols then Err(MissingColumn("lat"))
      else if "lon" !in cols then Err(MissingColumn("lon"))
      else Ok(StationsOf(cols, data))
  }

  /** The station of each data row, in order. */
  function StationsOf(cols: seq<string>, data: seq<seq<string>>): (r: seq<Station>)
    requires HasColumns(cols)
    requires forall k :: 0 <= k < |data| ==> |data[k]| == |cols|
    ensures |r| == |data| && forall k :: 0 <= k < |data| ==> r[k] == StationOf(cols, data[k])
  {
    seq(|data|, k requires 0 <= k < |data| => StationOf(cols, data[k]))
  }

  // ---------------------------------------------------------------------
  // The inventory

  /** The column names of a new MyInventory: pd.DataFrame({'code':[],'nw':[],'lat':[],'lon':[]}). */
  const DEFAULT_COLUMNS: seq<string> := ["code", "nw", "lat", "lon"]

  /**
   * df.loc[n] = [s.code, s.nw, s.lat, s.lon] under the columns cols: the
   * i-th value goes to the i-th column, whatever that column is called.
   */
  function Placed(cols: seq<string>, s: Station): Station
    requires HasColumns(cols) && |cols| == 4
  {
    var vals := [s.code, s.nw, s.lat, s.lon];
    Station(vals[Find(cols, "code")], vals[Find(cols, "nw")], vals[Find(cols, "lat")], vals[Find(cols, "lon")])
  }

  /** MyInventory: a table of stations under named columns, one row per appended station. */
  class Inventory {
    /** The column names of the frame, in order. */
    var columns: seq<string>
    /** The rows, each read under the column names code, nw, lat and lon. */
    var stations: seq<Station>

    /** The frame has a column of each name the methods use. */
    predicate Valid()
      reads this
    {
      HasColumns(columns)
    }

    /** MyInventory() without an input file: an empty table with the columns code, nw, lat, lon. */
    constructor ()
      ensures Valid()
      ensures columns == DEFAULT_COLUMNS && stations == []
    {
      columns := DEFAULT_COLUMNS;
      stations := [];
    }

    /**
     * MyInventory.append: a new last row holding the station's code, network,
     * latitude and longitude in the order of the columns; a frame that does
     * not have exactly four columns raises ValueError (false here) and is
     * left as it was.
     */
    method Append(s: Station) returns (ok: bool)
      requires Valid()
      modifies this
      ensures Valid() && columns == old(columns)
      ensures ok <==> |columns| == 4
      ensures ok ==> stations == old(stations) + [Placed(columns, s)]
      ensures !ok ==> stations == old(stations)
    {
      if |columns| != 4 {
        return false;
      }
      var vals := [s.code, s.nw, s.lat, s.lon];
      var row := Station(vals[Find(columns, "code")], vals[Find(columns, "nw")],
                         vals[Find(columns, "lat")], vals[Find(columns, "lon")]);
      stations := stations + [row];
      ok := true;
    }

    /** Append as it was evidently meant: the station is stored under its own column names. */
    method AppendByName(s: Station)
      requires Valid()
      modifies this
      ensures Valid() && columns == old(columns)
      ensures stations == old(stations) + [s]
      ensures Len() == old(Len()) + 1
      ensures NetworkCodes(stations) == NetworkCodes(old(stations)) + {s.nw}
    {
      stations := stations + [s];
      assert stations[..|stations| - 1] == old(stations);
    }

    /** The number of rows. */
    function Len(): (n: nat)
      reads this
      ensures n == |stations|
    {
      |stations|
    }

    /** The number of distinct network codes. */
    function NbNetworks(): (n: nat)
      reads this
      ensures n == |NetworkCodes(stations)|
      ensures stations == [] ==> n == 0
      ensures stations != [] ==> 1 <= n <= |stations|
    {
      NetworkCountBounds(stations);
      |NetworkCodes(stations)|
    }

    /** MyInventory.write: the header, then one padded line per row in row order. */
    method Write() returns (text: string)
      ensures text == DatText(stations)
    {
      var header := [COUNT_LABEL, Decimal(|stations|), COLUMNS_LINE];
      text := COUNT_LABEL + "\n" + Decimal(|stations|) + "\n" + COLUMNS_LINE + "\n";
      assert text == Unlines(header) by {
        assert header[1..][1..] == [COLUMNS_LINE];
        assert Unlines(header[1..][1..]) == COLUMNS_LINE + "\n";
        assert header[1..] == [Decimal(|stations|), COLUMNS_LINE];
        assert Unlines(header[1..]) == Decimal(|stations|) + "\n" + COLUMNS_LINE + "\n";
      }
      assert header + RowLines(stations[..0]) == header;
      var i := 0;
      while i < |stations|
        invariant 0 <= i <= |stations|
        invariant text == Unlines(header + RowLines(stations[..i]))
      {
        assert RowLines(stations[..i + 1]) == RowLines(stations[..i]) + [RowLine(stations[i])];
        assert header + RowLines(stations[..i + 1]) == header + RowLines(stations[..i]) + [RowLine(stations[i])];
        UnlinesSnoc(header + RowLines(stations[..i]), RowLine(stations[i]));
        text := text + RowLine(stations[i]) + "\n";
        i := i + 1;
      }
      assert stations[..i] == stations;
    }

    /**
     * MyInventory.read_fromDat: the table becomes the rows of the file; when
     * the file is missing or malformed the error is returned and the table is
     * left as it was.
     */
    method ReadFromDat(file: Option<string>) returns (err: Option<DatError>)
      requires Valid()
      modifies this
      ensures Valid()
      ensures file.None? ==> err == Some(FileNotFound) && stations == old(stations) && columns == old(columns)
      ensures file.Some? && ParseDat(file.value).Ok? ==>
        err == None && stations == ParseDat(file.value).value && columns == DatColumns(file.value)
      ensures file.Some? && ParseDat(file.value).Err? ==>
        err == Some(ParseDat(file.value).error) && stations == old(stations) && columns == old(columns)
    {
      if file.None? {
        return Some(FileNotFound);
      }
      var parsed := ParseDat(file.value);
      if parsed.Err? {
        return Some(parsed.error);
      }
      columns := DatColumns(file.value);
      stations := parsed.value;
      err := None;
    }
  }

  // ---------------------------------------------------------------------
  // Distinct networks

  /** The set of network codes in the rows. */
  function NetworkCodes(rows: seq<Station>): (r: set<string>)
    ensures forall k :: 0 <= k < |rows| ==> rows[k].nw in r
    ensures forall x :: x in r ==> exists k :: 0 <= k < |rows| && rows[k].nw == x
  {
    if rows == [] then {}
    else NetworkCodes(rows[..|rows| - 1]) + {rows[|rows| - 1].nw}
  }

  lemma {:induction false} NetworkCountBounds(rows: seq<Station>)
    ensures |NetworkCodes(rows)| <= |rows|
    ensures rows != [] ==> |NetworkCodes(rows)| >= 1
  {
    if rows != [] {
      NetworkCountBounds(rows[..|rows| - 1]);
    }
  }

  // ---------------------------------------------------------------------
  // The file format

  /** What a code or a coordinate must avoid to survive the round trip. */
  predicate Plain(s: string)
  {
    NoneIn(s, FIELD_BLANKS + LINE_BREAKS)
  }

  /** A station that the table stores faithfully: no underscore or blank in the codes, non-empty coordinates. */
  predicate Storable(s: Station)
  {
    '_' !in s.code && '_' !in s.nw && Plain(s.code) && Plain(s.nw) &&
    s.lat != [] && s.lon != [] && Plain(s.lat) && Plain(s.lon)
  }

  /** The fields of a written row: the padded codes and the coordinates. */
  lemma RowFields(s: Station)
    requires Storable(s)
    ensures Tokens(RowLine(s), FIELD_BLANKS) ==
            [PadRight(s.nw, 2, '_'), PadRight(s.code, 5, '_'), s.lat, s.lon]
  {
    var nw, code := PadRight(s.nw, 2, '_'), PadRight(s.code, 5, '_');
    NoneInSub(s.nw);
    NoneInSub(s.code);
    NoneInSub(s.lat);
    NoneInSub(s.lon);
    PadRightNoneIn(s.nw, 2, '_', FIELD_BLANKS);
    PadRightNoneIn(s.code, 5, '_', FIELD_BLANKS);
    var ws := [nw, code, s.lat, s.lon];
    assert Unwords(ws[3..]) == s.lon;
    assert Unwords(ws[2..]) == s.lat + " " + s.lon by { assert ws[2..][1..] == ws[3..]; }
    assert Unwords(ws[1..]) == code + " " + s.lat + " " + s.lon by { assert ws[1..][1..] == ws[2..]; }
    assert Unwords(ws) == RowLine(s);
    TokensUnwords(ws, FIELD_BLANKS);
  }

  lemma NoneInSub(s: string)
    requires Plain(s)
    ensures NoneIn(s, FIELD_BLANKS) && NoneIn(s, LINE_BREAKS)
  {
  }

  /** No written line is empty or holds a line break. */
  lemma DatLinesPlain(rows: seq<Station>)
    requires forall k :: 0 <= k < |rows| ==> Storable(rows[k])
    ensures forall k :: 0 <= k < |DatLines(rows)| ==>
      DatLines(rows)[k] != [] && NoneIn(DatLines(rows)[k], LINE_BREAKS)
  {
    var ls := DatLines(rows);
    forall k | 0 <= k < |ls| ensures ls[k] != [] && NoneIn(ls[k], LINE_BREAKS) {
      if k >= 3 {
        var s := rows[k - 3];
        assert ls[k] == RowLine(s);
        NoneInSub(s.nw);
        NoneInSub(s.code);
        NoneInSub(s.lat);
        NoneInSub(s.lon);
        PadRightNoneIn(s.nw, 2, '_', LINE_BREAKS);
        PadRightNoneIn(s.code, 5, '_', LINE_BREAKS);
        var nw, code := PadRight(s.nw, 2, '_'), PadRight(s.code, 5, '_');
        NoneInAppend(nw, " ", LINE_BREAKS);
        NoneInAppend(nw + " ", code, LINE_BREAKS);
        NoneInAppend(nw + " " + code, " ", LINE_BREAKS);
        NoneInAppend(nw + " " + code + " ", s.lat, LINE_BREAKS);
        NoneInAppend(nw + " " + code + " " + s.lat, " ", LINE_BREAKS);
        NoneInAppend(nw + " " + code + " " + s.lat + " ", s.lon, LINE_BREAKS);
      } else if k == 1 {
        assert forall i :: 0 <= i < |ls[1]| ==> IsDigit(ls[1][i]);
      }
    }
  }

  /** The file holds exactly the header lines and the row lines, in order. */
  lemma DatTextLines(rows: seq<Station>)
    requires forall k :: 0 <= k < |rows| ==> Storable(rows[k])
    ensures Tokens(DatText(rows), LINE_BREAKS) == DatLines(rows)
    ensures |DatLines(rows)| == 3 + |rows|
    ensures DatLines(rows)[1] == Decimal(|rows|)
    ensures forall k :: 0 <= k < |rows| ==> DatLines(rows)[3 + k] == RowLine(rows[k])
  {
    DatLinesPlain(rows);
    TokensUnlines(DatLines(rows), LINE_BREAKS);
  }

  /** When every line has a field, the records are the field lists of all lines. */
  lemma {:induction false} RecordsOfFilledLines(lines: seq<string>)
    requires forall k :: 0 <= k < |lines| ==> Tokens(lines[k], FIELD_BLANKS) != []
    ensures |Records(lines)| == |lines|
    ensures forall k :: 0 <= k < |lines| ==> Records(lines)[k] == Tokens(lines[k], FIELD_BLANKS)
  {
    if lines != [] {
      RecordsOfFilledLines(lines[1..]);
    }
  }

  lemma ColumnsLineFields()
    ensures Tokens(COLUMNS_LINE, FIELD_BLANKS) == ["nw", "stn", "lat", "lon:"]
  {
    var header := ["nw", "stn", "lat", "lon:"];
    assert Unwords(header[3..]) == "lon:";
    assert Unwords(header[2..]) == "lat lon:" by { assert header[2..][1..] == header[3..]; }
    assert Unwords(header[1..]) == "stn lat lon:" by { assert header[1..][1..] == header[2..]; }
    assert Unwords(header) == COLUMNS_LINE;
    TokensUnwords(header, FIELD_BLANKS);
  }

  /** Every written line has at least one field. */
  lemma DatLinesFilled(rows: seq<Station>)
    requires forall k :: 0 <= k < |rows| ==> Storable(rows[k])
    ensures forall k :: 0 <= k < |DatLines(rows)| ==> Tokens(DatLines(rows)[k], FIELD_BLANKS) != []
  {
    var lines := DatLines(rows);
    forall k | 0 <= k < |lines| ensures Tokens(lines[k], FIELD_BLANKS) != [] {
      if k >= 3 {
        RowFields(rows[k - 3]);
      } else {
        TokensNonEmpty(lines[k], FIELD_BLANKS);
      }
    }
  }

  /** The records of a written file: the three header lines, then the fields of each row. */
  lemma DatRecordsOfDatText(rows: seq<Station>)
    requires forall k :: 0 <= k < |rows| ==> Storable(rows[k])
    ensures |DatRecords(DatText(rows))| == 3 + |rows|
    ensures DatRecords(DatText(rows))[2] == ["nw", "stn", "lat", "lon:"]
    ensures forall k :: 0 <= k < |rows| ==>
      DatRecords(DatText(rows))[3 + k] == [PadRight(rows[k].nw, 2, '_'), PadRight(rows[k].code, 5, '_'), rows[k].lat, rows[k].lon]
  {
    var lines := DatLines(rows);
    DatTextLines(rows);
    ColumnsLineFields();
    DatLinesFilled(rows);
    RecordsOfFilledLines(lines);
    forall k | 0 <= k < |rows|
      ensures DatRecords(DatText(rows))[3 + k] == [PadRight(rows[k].nw, 2, '_'), PadRight(rows[k].code, 5, '_'), rows[k].lat, rows[k].lon]
    {
      RowFields(rows[k]);
    }
  }

  /** The column names of a written file after renaming. */
  lemma RenamedColumnsLine()
    ensures RenameColumns(["nw", "stn", "lat", "lon:"]) == ["nw", "code", "lat", "lon"]
    ensures HasColumns(["nw", "code", "lat", "lon"])
  {
    var r := RenameColumns(["nw", "stn", "lat", "lon:"]);
    assert r[0] == "nw" && r[1] == "code" && r[2] == "lat" && r[3] == "lon";
  }

  /** A written row read under the renamed columns is the station again. */
  lemma StationOfRow(s: Station)
    requires Storable(s)
    ensures HasColumns(["nw", "code", "lat", "lon"])
    ensures StationOf(["nw", "code", "lat", "lon"], [PadRight(s.nw, 2, '_'), PadRight(s.code, 5, '_'), s.lat, s.lon]) == s
  {
    var cols := ["nw", "code", "lat", "lon"];
    FindAt(cols, "nw", 0);
    FindAt(cols, "code", 1);
    FindAt(cols, "lat", 2);
    FindAt(cols, "lon", 3);
    PadRightRemove(s.code, 5, '_');
    PadRightRemove(s.nw, 2, '_');
  }

  /** Writing a table and reading the file back gives the same rows, in the same order. */
  lemma ParseDatOfDatText(rows: seq<Station>)
    requires forall k :: 0 <= k < |rows| ==> Storable(rows[k])
    ensures ParseDat(DatText(rows)) == Ok(rows)
  {
    DatRecordsOfDatText(rows);
    ParseDatOfRecords(DatText(rows), rows);
  }

  /** A text whose records are the written header and rows is read back as those rows. */
  lemma ParseDatOfRecords(text: string, rows: seq<Station>)
    requires forall k :: 0 <= k < |rows| ==> Storable(rows[k])
    requires |DatRecords(text)| == 3 + |rows|
    requires DatRecords(text)[2] == ["nw", "stn", "lat", "lon:"]
    requires forall k :: 0 <= k < |rows| ==>
      DatRecords(text)[3 + k] == [PadRight(rows[k].nw, 2, '_'), PadRight(rows[k].code, 5, '_'), rows[k].lat, rows[k].lon]
    ensures ParseDat(text) == Ok(rows)
  {
    RenamedColumnsLine();
    var recs := DatRecords(text);
    var cols := DatColumns(text);
    assert cols == ["nw", "code", "lat", "lon"];
    var data := recs[3..];
    assert forall k :: 0 <= k < |rows| ==>
      data[k] == [PadRight(rows[k].nw, 2, '_'), PadRight(rows[k].code, 5, '_'), rows[k].lat, rows[k].lon];
    StationsOfRows(data, rows);
  }

  /** The written rows, read under the renamed columns, are the stations again. */
  lemma StationsOfRows(data: seq<seq<string>>, rows: seq<Station>)
    requires forall k :: 0 <= k < |rows| ==> Storable(rows[k])
    requires |data| == |rows|
    requires forall k :: 0 <= k < |rows| ==>
      data[k] == [PadRight(rows[k].nw, 2, '_'), PadRight(rows[k].code, 5, '_'), rows[k].lat, rows[k].lon]
    ensures HasColumns(["nw", "code", "lat", "lon"])
    ensures FirstBadWidth(data, 4) == |data|
    ensures StationsOf(["nw", "code", "lat", "lon"], data) == rows
  {
    RenamedColumnsLine();
    assert forall k :: 0 <= k < |data| ==> |data[k]| == 4;
    StationOfEachRow(data, rows);
  }

  lemma StationOfEachRow(data: seq<seq<string>>, rows: seq<Station>)
    requires forall k :: 0 <= k < |rows| ==> Storable(rows[k])
    requires |data| == |rows|
    requires forall k :: 0 <= k < |rows| ==>
      data[k] == [PadRight(rows[k].nw, 2, '_'), PadRight(rows[k].code, 5, '_'), rows[k].lat, rows[k].lon]
    ensures HasColumns(["nw", "code", "lat", "lon"])
    ensures forall k :: 0 <= k < |data| ==> |data[k]| == 4 && StationOf(["nw", "code", "lat", "lon"], data[k]) == rows[k]
  {
    RenamedColumnsLine();
    forall k | 0 <= k < |data|
      ensures |data[k]| == 4 && StationOf(["nw", "code", "lat", "lon"], data[k]) == rows[k]
    {
      StationOfRow(rows[k]);
    }
  }

  /**
   * The first two lines are skipped whatever they say: in particular the row
   * count written on the second line is never read back.
   */
  lemma ParseDatSkipsFirstTwoLines(a: string, b: string, a': string, b': string, rest: seq<string>)
    requires Tokens(a, FIELD_BLANKS) != [] && Tokens(b, FIELD_BLANKS) != []
    requires Tokens(a', FIELD_BLANKS) != [] && Tokens(b', FIELD_BLANKS) != []
    ensures Records([a, b] + rest) == [Tokens(a, FIELD_BLANKS), Tokens(b, FIELD_BLANKS)] + Records(rest)
    ensures Records([a', b'] + rest) == [Tokens(a', FIELD_BLANKS), Tokens(b', FIELD_BLANKS)] + Records(rest)
    ensures Records([a, b] + rest)[2..] == Records([a', b'] + rest)[2..]
  {
    RecordsOfTwo(a, b, rest);
    RecordsOfTwo(a', b', rest);
  }

  lemma RecordsOfTwo(a: string, b: string, rest: seq<string>)
    requires Tokens(a, FIELD_BLANKS) != [] && Tokens(b, FIELD_BLANKS) != []
    ensures Records([a, b] + rest) == [Tokens(a, FIELD_BLANKS), Tokens(b, FIELD_BLANKS)] + Records(rest)
  {
    var lines := [a, b] + rest;
    assert lines[0] == a && lines[1..] == [b] + rest;
    assert ([b] + rest)[0] == b && ([b] + rest)[1..] == rest;
    assert Records([b] + rest) == [Tokens(b, FIELD_BLANKS)] + Records(rest);
  }

  // ---------------------------------------------------------------------
  // Appending by position

  /** On the columns of a new inventory, placing by position stores the station as it is. */
  lemma PlacedInDefaultColumns(s: Station)
    ensures HasColumns(DEFAULT_COLUMNS) && Placed(DEFAULT_COLUMNS, s) == s
  {
    FindAt(DEFAULT_COLUMNS, "code", 0);
    FindAt(DEFAULT_COLUMNS, "nw", 1);
    FindAt(DEFAULT_COLUMNS, "lat", 2);
    FindAt(DEFAULT_COLUMNS, "lon", 3);
  }

  /** A written file is read back under the columns nw, code, lat, lon: the network comes first. */
  lemma DatColumnsOfDatText(rows: seq<Station>)
    requires forall k :: 0 <= k < |rows| ==> Storable(rows[k])
    ensures |DatRecords(DatText(rows))| >= 3
    ensures DatColumns(DatText(rows)) == ["nw", "code", "lat", "lon"]
  {
    DatRecordsOfDatText(rows);
    RenamedColumnsLine();
  }

  /**
   * After reading a written file, placing by position swaps the station code
   * and the network code: the code lands in the nw column and the network in
   * the code column.
   */
  lemma PlacedAfterReadSwaps(rows: seq<Station>, s: Station)
    requires forall k :: 0 <= k < |rows| ==> Storable(rows[k])
    ensures |DatRecords(DatText(rows))| >= 3
    ensures var cols := DatColumns(DatText(rows));
      HasColumns(cols) && |cols| == 4 && Placed(cols, s) == Station(s.nw, s.code, s.lat, s.lon)
  {
    DatColumnsOfDatText(rows);
    PlacedInReadColumns(s);
  }

  lemma PlacedInReadColumns(s: Station)
    ensures HasColumns(["nw", "code", "lat", "lon"])
    ensures Placed(["nw", "code", "lat", "lon"], s) == Station(s.nw, s.code, s.lat, s.lon)
  {
    var cols := ["nw", "code", "lat", "lon"];
    FindAt(cols, "nw", 0);
    FindAt(cols, "code", 1);
    FindAt(cols, "lat", 2);
    FindAt(cols, "lon", 3);
  }

  /** For instance, station ANMO of network IU appended after a read is stored as station IU of network ANMO. */
  lemma AppendAfterReadMislabels()
    ensures |DatRecords(DatText([]))| >= 3
    ensures var cols := DatColumns(DatText([]));
      HasColumns(cols) && |cols| == 4 &&
      Placed(cols, Station("ANMO", "IU", "34.9459", "-106.4572")) == Station("IU", "ANMO", "34.9459", "-106.4572")
  {
    PlacedAfterReadSwaps([], Station("ANMO", "IU", "34.9459", "-106.4572"));
  }
}
