# Event batch toolbox: station tables, batch download loop, figure scripts

This project models the bookkeeping core of a small seismology toolbox. The toolbox:

- reads a list of earthquakes (an origin date and a magnitude per line);
- finds each event's CMT solution and its station table;
- makes one data directory per event and names the pickled waveform file for it;
- later walks the pickle directory to plan one record-section plot and one
  great-circle map per event.

The pieces modelled are:

- **`StationInventory`**: the in-memory station table (`MyInventory`, a
  class whose `columns` and `stations` fields are replaced or extended in
  place: the frame's column names in order, and its rows). It covers
  `append`, `len`, `nb_networks`, and the `receivers.dat` text that `write`
  produces and `read_fromDat` reads back. That text is a count line, the
  count, a column line, then one row per station, with the network code
  padded to 2 and the station code to 5 with `_`.
- **`DownloadAllEvents`**: the batch loop. It parses `YYYY/MM/DD magnitude`
  lines, builds the two event identifiers and the file names, and skips an
  event whose event file or station file is missing. Otherwise it creates
  `mseed_data/<event id 2>` if absent and names `obspy_pkl_data/<event id 2>.pkl`.
  An unparsable line, an impossible date or a missing `mseed_data` ends the
  batch, as the uncaught exception does. The loop body is the method
  `EntryStep`, with the file tests and the directory creation in
  `VisitStep`; they are proved against the functions `Entry` and `Visit`,
  and `Visit` is `Decide` applied to the names `TargetsOf` builds. The loop, `DownloadAll`,
  is proved against `Batch`: the generic loop `Run` instantiated with the
  script's iteration, so the loop lemmas hold for any iteration function.
- **`EventIdPattern`**: the regular expression
  `\d{4}-\d{2}-\d{2}_\d\.\d` searched in each pickle file name. It models the
  leftmost match, the groups read from it, and `datetime(...)` refusing an
  impossible date, which stops the scan.
- **`WaveformsAzRecordSections`** and **`MapGreatCircleAllEvents`**: one
  plotting command per matching pickle name, in listing order, with the exact
  argument vectors. Both scripts run the same loop over the listing,
  `EventIdPattern.CommandsOfListing`, each with its own command.
- **`Mseed2ObspyStream`**: choosing the first free name among
  `receivers.dat`, `receivers.dat.1`, `receivers.dat.2`, …, and the
  fixed-width `receivers.dat` text written from an obspy inventory.
- **`Text`**, **`Paths`**, **`EventIds`**: shared helpers. They model
  Python's `str.split()`, left-justified padding, `str.replace(c, "")`,
  `os.path.join`, `strftime`/`strptime` for the formats used, and the
  printing of magnitudes.

Modelling choices:

- File systems are sets of existing paths.
- Directory listings are sequences.
- The directory containing the batch script is a parameter (`curDir`).
- Magnitudes are whole tenths, so 6.5 is `65`.
- Latitude and longitude stay as the text that is written and read.

Two behaviours of the code are kept as written:

- The count line of the `receivers.dat` written by `mseed2obspy_stream`
  holds the number of networks, not the number of stations
  (`Mseed2ObspyStream.HeaderCountsNetworks`,
  `Mseed2ObspyStream.HeaderCountDiffersFromRows`).
- When `receivers.dat` already exists, the conversion writes
  `receivers.dat.N` (`Mseed2ObspyStream.ChosenBase`). The map script still
  reads `<event id 2>/receivers.dat`
  (`MapGreatCircleAllEvents.ReceiversFileInDataDir`), so it sees the older
  table.

## Model

| member | source | states |
|---|---|---|
| StationInventory.Inventory.constructor | station_inventory.py:33-34 | a new inventory has no stations and the columns code, nw, lat, lon, in that order |
| StationInventory.Inventory.Append | station_inventory.py:38-39 | as written: the columns are kept; with four columns one row is added after the existing rows, holding code, network, latitude and longitude in column order, whatever the columns are called; with any other number of columns the table is left as it was |
| StationInventory.Inventory.AppendByName | station_inventory.py:38-39 | corrected append: the station is stored as given, under its own column names, as one new last row; the length grows by one and the network codes become the old ones plus the station's network |
| StationInventory.PlacedInDefaultColumns | station_inventory.py:34-39 | on the columns of a new inventory, append by position stores the station as given |
| StationInventory.DatColumnsOfDatText | station_inventory.py:76-90 | a file written by `write` is read back under the columns nw, code, lat, lon, in that order |
| StationInventory.PlacedAfterReadSwaps | station_inventory.py:38-39 | after `read_fromDat` of a written file, append by position stores the station with its code and its network swapped |
| StationInventory.PlacedInReadColumns | station_inventory.py:38-39 | under the columns nw, code, lat, lon, append by position puts the code in the nw column and the network in the code column |
| StationInventory.AppendAfterReadMislabels | station_inventory.py:38-39 | a concrete case: station ANMO of network IU, appended after a read, is stored as station IU of network ANMO |
| StationInventory.Inventory.Len | station_inventory.py:68-69 | the number of rows of the table |
| StationInventory.Inventory.NbNetworks | station_inventory.py:70-71 | the number of distinct network codes: 0 for an empty table, otherwise between 1 and the number of rows |
| StationInventory.NetworkCodes | station_inventory.py:70-71 | a code is among the distinct network codes exactly when some row carries it |
| StationInventory.NetworkCountBounds | station_inventory.py:70-71 | no more distinct networks than rows, and at least one when there is a row |
| StationInventory.Inventory.Write | station_inventory.py:73-84 | the text written is the count label, the row count, the column line, then one padded line per row in table order, each ending in a newline |
| StationInventory.DatTextLines | station_inventory.py:76-83 | the written text splits back into exactly 3 + n lines: the count is on the second line, and row k is on line 3 + k |
| Text.PadRight | station_inventory.py:80-81 | right padding to width w keeps the code as a prefix, never truncates, and fills only with the pad character up to max(len, w) |
| Text.PadRightRemove | station_inventory.py:80-81 | removing every pad character from a padded code gives back the code, provided it had none |
| Text.RemoveAll | station_inventory.py:93-94 | `replace(c, "")` leaves no `c`, only characters of the original, and changes nothing when there was no `c` |
| Text.Tokens | station_inventory.py:88 | whitespace splitting yields non-empty fields containing no separator |
| Text.TokensUnwords | station_inventory.py:83 | fields joined with single blanks split back into the same fields |
| Text.TokensUnlines | station_inventory.py:76-83 | non-empty lines without line breaks, each ending in a newline, split back into the same lines |
| StationInventory.RenameColumn | station_inventory.py:90 | renames `stn` to `code` and `lon:` to `lon` and leaves every other column name unchanged |
| StationInventory.ParseDat | station_inventory.py:86-94 | missing header exactly when the text has fewer than three non-blank lines; on success the renamed columns include code, nw, lat and lon, there is one station per data row (row count = lines − 3), each station is read from its row by column name, and no code keeps an underscore |
| StationInventory.Records | station_inventory.py:88 | blank lines give no record: no more records than lines, and none of them empty |
| StationInventory.StationOf | station_inventory.py:90-94 | a station read from a row has no underscore in its code or its network code |
| StationInventory.StationsOf | station_inventory.py:91-94 | one station per data row, in order, each read from its row by column name |
| StationInventory.StationsOfRows | station_inventory.py:76-94 | the rows written under the columns nw, code, lat, lon all have four fields and read back as the written stations |
| StationInventory.Inventory.ReadFromDat | station_inventory.py:86-94 | a missing file raises file-not-found and a parse error is returned, both leaving the table and its columns; otherwise the columns become the renamed header of the file and the table its parsed stations |
| StationInventory.ParseDatOfRecords | station_inventory.py:73-94 | a text whose non-blank lines are the written header and one four-field row per station is read as those stations |
| StationInventory.ParseDatOfDatText | station_inventory.py:73-94 | round trip: reading the text `write` produces gives back the same stations, for codes without blanks or underscores |
| StationInventory.ParseDatSkipsFirstTwoLines | station_inventory.py:88 | with `header = 2` the first two lines do not affect the records used |
| StationInventory.DatRecordsOfDatText | station_inventory.py:76-88 | the records of the written text are 3 + n; the third is the column line; record 3 + k holds the padded codes and the coordinates of row k |
| StationInventory.StationOfRow | station_inventory.py:90-94 | a written row, read by column name and stripped of underscores, is the station that was written |
| Text.Decimal | station_inventory.py:76 | the decimal text of n is all digits, denotes n, and has one digit exactly when n < 10 |
| Text.DecimalInjective | mseed2obspy_stream.py:65 | different numbers print differently |
| Text.ZeroPad | download_all_events.py:58-59 | zero padding to width w is all digits, at least w long, and denotes n |
| Text.ZeroPadOfDigits | waveforms_az_record_sections.py:46-55 | padding the value of w digits back to width w gives the same digits |
| Text.Take | mseed2obspy_stream.py:78 | slicing `[:4]` gives a prefix of length min(len, 4) |
| Paths.Join | download_all_events.py:66-68 | `os.path.join` returns an absolute second part unchanged and otherwise puts it after the first part, adding `/` unless the first part is empty or already ends with one |
| Paths.JoinJoin | download_all_events.py:91-94 | joining a relative path in two steps equals joining the combined relative path |
| Paths.JoinInjective | waveforms_az_record_sections.py:62-65 | joining with the same directory keeps different relative names different |
| Paths.NamesApart | waveforms_az_record_sections.py:64-65 | different names with the same directory and suffix give different paths |
| EventIds.ParseSlashDate | download_all_events.py:57 | `strptime("%Y/%m/%d")` yields only calendar dates: four year digits, a slash, one or two month digits, a slash and one or two day digits, whose values are the year, month and day read |
| EventIds.ParseSlashDateOfFields | download_all_events.py:57 | four year digits, a slash, one or two month digits, a slash and one or two day digits that name a calendar date are read as that date |
| EventIds.ParseSlashDateOfPadded | download_all_events.py:54-57 | a date written with four year digits and one- or two-digit month and day is read back exactly |
| EventIds.ParseMagnitudeOfMagText | download_all_events.py:55-62 | a magnitude printed with one decimal reads back as the same number of tenths |
| EventIds.MagTextInjective | download_all_events.py:61-62 | different magnitudes give different identifiers' magnitude text |
| EventIds.MagText | download_all_events.py:61-62 | the printed magnitude starts with a digit and has exactly one digit after its point |
| EventIds.ParseMagnitude | download_all_events.py:55 | an accepted token is either digits, read as that many whole units, or digits, a point and one digit, read as tenths |
| EventIds.ParseMagnitudeOfPoint | download_all_events.py:55 | digits, a point and a digit are read as the digits' value in tenths plus that digit |
| EventIds.DayMonthYear | download_all_events.py:58 | `%d-%b-%Y` is eleven characters with dashes at positions 2 and 6 |
| EventIds.DayMonthYearFields | download_all_events.py:58 | the day's two digits, the English month abbreviation and the year's four digits stand at their fixed places |
| EventIds.DayMonthYearInjective | download_all_events.py:58 | different dates print differently under `%d-%b-%Y` |
| EventIds.IsoDate | download_all_events.py:59 | `%Y-%m-%d` is ten characters, starts with a digit and has dashes at positions 4 and 7 |
| EventIds.IsoDateFields | download_all_events.py:59 | the year's four digits, the month's two digits and the day's two digits stand at their fixed places |
| EventIds.EventId | download_all_events.py:61 | the event id is the printed magnitude, `_`, and the day-month-year date in its last eleven characters |
| EventIds.EventId2 | download_all_events.py:62 | the event id 2 is the ISO date in its first ten characters, `_`, and the printed magnitude; it starts and ends with a digit |
| EventIds.EventIdInjective | download_all_events.py:61 | two events with the same event id are the same event |
| EventIds.EventId2Injective | download_all_events.py:62 | two events with the same event id 2 are the same event, whatever the magnitude |
| EventIds.EventIdsAgree | download_all_events.py:61-62 | two events share an event id exactly when they share an event id 2 |
| DownloadAllEvents.ParseLine | download_all_events.py:54-57 | the failures come in source order: no field, then no second field (IndexError), then a magnitude `float` rejects, then a date `strptime` rejects; a line whose first two fields are a valid `%Y/%m/%d` date and a one-decimal magnitude is accepted as exactly that date and magnitude, and only such lines are |
| DownloadAllEvents.FirstTwoTokens | download_all_events.py:54-55 | `split()` of two blank-free words joined by a blank, then the end of the line or a separator, yields those words first |
| DownloadAllEvents.ParseLineOfListed | download_all_events.py:54-57 | a list line holding a date written `YYYY/M[M]/D[D]`, a blank and a one-decimal magnitude, then the end of the line or more fields, is accepted as that date and magnitude |
| DownloadAllEvents.EventFile | download_all_events.py:66 | the event file is `events_usgs_cmtslt/<event id>.cmtsolution` |
| DownloadAllEvents.StationsFile | download_all_events.py:68 | the station file is `stations_usgs_cmtslt/<event id>_receivers.dat` |
| DownloadAllEvents.EventDataDir | download_all_events.py:91-94 | the work directory is `cur_dir/mseed_data/<event id 2>` |
| DownloadAllEvents.PklFile | download_all_events.py:100 | the pickle file is `cur_dir/obspy_pkl_data/<event id 2>.pkl` |
| DownloadAllEvents.NamedBelow | download_all_events.py:66-68 | `os.path.join` of a directory not ending in `/` and a name starting with a digit puts exactly one `/` between them |
| DownloadAllEvents.PklFileOf | download_all_events.py:100 | `os.path.join(cur_dir, "obspy_pkl_data/<id>.pkl")` is that relative name below `cur_dir` |
| DownloadAllEvents.Decide | download_all_events.py:72-94 | a missing event file skips the entry as `SkipEvent` and a missing station file as `SkipStations`, both leaving the file system alone; the only failure is `NoDataDir`, exactly when both files exist and `mseed_data` does not; otherwise the event is processed in its work directory with its pickle file, and only that directory is created |
| DownloadAllEvents.Visit | download_all_events.py:64-94 | for the event's own paths below `cur_dir`: a missing event file gives `SkipEvent(<event id 2>)`, a missing station file `SkipStations(<event id 2>)`, existing files without `mseed_data` raise `NoDataDir`, and otherwise the action is `Process` with work directory `EventDataDir` and pickle `PklFile`; at most that directory is created |
| DownloadAllEvents.Entry | download_all_events.py:50-94 | a line that cannot be read raises its parse failure; a line read as an event does what `Visit` says of that event; at most the event's work directory is created |
| DownloadAllEvents.VisitStep | download_all_events.py:66-94 | the event-file test, the station-file test, the `chdir` into `mseed_data` and the `mkdir` give exactly the outcome `Visit` defines |
| DownloadAllEvents.Entries | download_all_events.py:45-48 | the loop visits every line after the first, and none when the file is empty |
| DownloadAllEvents.DownloadAll | download_all_events.py:43-103 | the loop's actions, final file system and stopping failure are those of the batch specification over lines[1..], with the working directory reset to `cur_dir` each round |
| DownloadAllEvents.EntryStep | download_all_events.py:50-103 | one round of the loop body gives exactly the outcome `Iterate(curDir)` gives: the parse failures in the order `split()[0]`, `split()[1]`, `float`, `strptime`, then the tests of `VisitStep` |
| DownloadAllEvents.RunStops | download_all_events.py:54-57 | an entry that fails ends the loop with that failure and adds no action |
| DownloadAllEvents.RunGoesOn | download_all_events.py:48-103 | an entry that succeeds contributes its action, and the loop continues from the file system it leaves |
| DownloadAllEvents.RunByEntry | download_all_events.py:48-103 | for any iteration that agrees with a per-line outcome on every grown file system, action k is that outcome for entry k, and the loop stops early only at an entry whose outcome is a failure |
| DownloadAllEvents.BatchByEntry | download_all_events.py:48-103 | action k is what entry k gives judged against the initial file system, since earlier rounds create only event data directories; the batch stops early only at an entry that fails, with that failure |
| DownloadAllEvents.BatchAtEntry | download_all_events.py:48-103 | once the batch has reached entry k, an entry that raises ends it there with that failure, and any other entry adds its action and the batch goes past it |
| DownloadAllEvents.BatchSkipsMissingFiles | download_all_events.py:72-88 | a listed event whose event file (or else station file) is missing at the start is skipped as `SkipEvent` (or `SkipStations`) and the batch goes on past it |
| DownloadAllEvents.BatchProcesses | download_all_events.py:66-103 | a listed event whose event file, station file and `mseed_data` exist at the start is processed in `cur_dir/mseed_data/<event id 2>` with pickle `cur_dir/obspy_pkl_data/<event id 2>.pkl` |
| DownloadAllEvents.BatchStopsWithoutDataDir | download_all_events.py:66-91 | a listed event whose files exist while `mseed_data` does not ends the batch at that entry with `NoDataDir` |
| DownloadAllEvents.BatchStopsAtBadLine | download_all_events.py:54-57 | a line that cannot be read ends the batch at that entry with its parse failure |
| DownloadAllEvents.EntryAgainstInitial | download_all_events.py:50-94 | one round's outcome depends on the file system only through paths the batch never creates |
| DownloadAllEvents.NotUnderDataDir | download_all_events.py:66-68 | a path joined from a name not starting with `m` or `/` is not inside `mseed_data` |
| DownloadAllEvents.InDataDir | download_all_events.py:91-94 | every name below `mseed_data` is a path the batch may create |
| DownloadAllEvents.TargetsSeparated | download_all_events.py:66-94 | the event file, the station file and `mseed_data` itself are never inside a created event data directory, and the work directory is |
| DownloadAllEvents.DecideAgainstInitial | download_all_events.py:72-94 | on such names, the tests run after earlier rounds decide as they would on the initial file system |
| DownloadAllEvents.RunCreates | download_all_events.py:91-94 | a loop whose rounds add only the work directories of processed entries ends with exactly those added to the initial set of modelled paths |
| DownloadAllEvents.BatchCreates | download_all_events.py:91-94 | the final set of modelled paths is the initial one plus the work directories of the processed events; the files the downloads and the conversion write are not modelled (first line of "Left out") |
| EventIdPattern.SearchFrom | waveforms_az_record_sections.py:30-42 | the position found is a match and no earlier position from the start matches; no result means no match at all |
| EventIdPattern.Search | waveforms_az_record_sections.py:42-44 | `re.search` finds the leftmost match, and finds nothing exactly when no position matches |
| EventIdPattern.GroupsOf | waveforms_az_record_sections.py:46-52 | the month and day groups are two digits and the magnitude group is below 10.0 |
| EventIdPattern.ParseName | waveforms_az_record_sections.py:42-52 | no match exactly when the search fails; an impossible date carries the groups of the leftmost match, which are not a calendar date; an event is a valid date and a magnitude below 10 that are the groups of the leftmost match |
| EventIdPattern.ParseNameMatched | waveforms_az_record_sections.py:42-58 | the event id 2 rebuilt from a name's event is exactly the text the pattern matched |
| EventIdPattern.MatchedIsEventId2 | waveforms_az_record_sections.py:46-58 | the identifier rebuilt from a match's groups is the matched text itself |
| EventIdPattern.MatchOfEventId2 | waveforms_az_record_sections.py:30 | every identifier of an event below magnitude 10 matches the pattern, with groups equal to its date and magnitude |
| EventIdPattern.ParseNameOfEventId2 | waveforms_az_record_sections.py:40-58 | a pickle name `<event id 2><anything>` is read back as exactly that event |
| EventIdPattern.ParseNameOfLargeMagnitude | waveforms_az_record_sections.py:30-44 | a pickle name of an event of magnitude 10 or more matches nowhere and is skipped |
| EventIdPattern.ScanParsed | waveforms_az_record_sections.py:40-52 | no more events than names; when every parsed event is plottable, so is every event yielded |
| EventIdPattern.ScanNames | waveforms_az_record_sections.py:40-52 | every event found is a calendar date with a magnitude below 10, and there are no more events than names |
| EventIdPattern.ScanAllEvents | waveforms_az_record_sections.py:40-58 | names that all parse to events yield exactly those events, in listing order, and the loop runs to the end |
| EventIdPattern.ScanOfPklNames | waveforms_az_record_sections.py:40-62 | scanning the pickle names the batch writes gives back those events, in order, without stopping |
| EventIdPattern.ScanParsedStops | waveforms_az_record_sections.py:40-50 | the loop over parsed names stops exactly when one of them is an impossible date |
| EventIdPattern.ScanStops | waveforms_az_record_sections.py:48-50 | the scan stops exactly when some name matches with an impossible date |
| EventIdPattern.CommandsOfListing | waveforms_az_record_sections.py:40-69 | the loop over the listing, shared by both plotting scripts, issues one command per event the scan finds, in listing order, and stops where the scan stops |
| WaveformsAzRecordSections.PlotAll | waveforms_az_record_sections.py:40-69 | the commands issued are one per event found by the scan, in listing order, and the loop stops where the scan stops |
| WaveformsAzRecordSections.WfFile | waveforms_az_record_sections.py:62 | the waveform file is `obspy_pkl_data/<event id 2>.pkl` |
| WaveformsAzRecordSections.OutFileS | waveforms_az_record_sections.py:64 | the S figure is `wf_figures/<event id 2>_wf_S.png` |
| WaveformsAzRecordSections.OutFileSS | waveforms_az_record_sections.py:65 | the sS figure is `wf_figures/<event id 2>_wf_sS.png` |
| WaveformsAzRecordSections.Arguments | waveforms_az_record_sections.py:69 | the argument vector has 22 entries: the program, the waveform file, and the figure right after `-o` |
| WaveformsAzRecordSections.PlotCommand | waveforms_az_record_sections.py:62-69 | the command of an event runs the record-section program on its pickle and writes its S figure |
| WaveformsAzRecordSections.WfFileIsPklFile | waveforms_az_record_sections.py:62 | the waveform file plotted, taken from `cur_dir`, is the pickle file the batch wrote for that event |
| WaveformsAzRecordSections.PlotsListedPickle | waveforms_az_record_sections.py:40-62 | each pickle name the batch writes is plotted from that same pickle file |
| WaveformsAzRecordSections.OutFilesDistinct | waveforms_az_record_sections.py:64-65 | different events get different S figure names and different sS figure names |
| MapGreatCircleAllEvents.PlotAll | map_great_circle_all_events.py:38-64 | the commands issued are one per event found by the scan, in listing order, and the loop stops where the scan stops |
| MapGreatCircleAllEvents.ReceiversFile | map_great_circle_all_events.py:61 | the receivers file is `mseed_data/<event id 2>/receivers.dat` |
| MapGreatCircleAllEvents.OutFile | map_great_circle_all_events.py:62 | the map is `great_circles_figures/<event id 2>_map_GC.png` |
| MapGreatCircleAllEvents.Arguments | map_great_circle_all_events.py:64 | the argument vector has 8 entries: the program, then the event file after `--event`, the receivers file after `--receivers` and the map after `-o` |
| MapGreatCircleAllEvents.PlotCommand | map_great_circle_all_events.py:60-64 | the command of an event passes its CMT solution file, its receivers file and its map name |
| MapGreatCircleAllEvents.ReceiversRelative | map_great_circle_all_events.py:61 | joining `<id>/receivers.dat` below `mseed_data` puts one `/` between them |
| MapGreatCircleAllEvents.ReceiversBelow | map_great_circle_all_events.py:61 | read from `cur_dir`, `mseed_data/<id>/receivers.dat` is `receivers.dat` inside `cur_dir/mseed_data/<id>` |
| MapGreatCircleAllEvents.ReceiversFileInDataDir | map_great_circle_all_events.py:61 | the receivers file read, taken from `cur_dir`, is `receivers.dat` inside the batch's work directory for that event |
| MapGreatCircleAllEvents.OutFilesDistinct | map_great_circle_all_events.py:62 | different events get different map names |
| Mseed2ObspyStream.CandidatesDistinct | mseed2obspy_stream.py:61-66 | the candidate names `receivers.dat`, `receivers.dat.1`, … are pairwise different |
| Mseed2ObspyStream.ChooseReceiversFile | mseed2obspy_stream.py:61-66 | the name chosen does not exist, it is the n-th candidate, and every earlier candidate exists |
| Mseed2ObspyStream.ChosenBase | mseed2obspy_stream.py:61-66 | `receivers.dat` is chosen exactly when it does not exist |
| Mseed2ObspyStream.WriteReceivers | mseed2obspy_stream.py:70-78 | the text written is the three header lines, then one row per station of each network in order, each ending in a newline |
| Mseed2ObspyStream.Pairs | mseed2obspy_stream.py:73-77 | one (network, station) pair per station of the network, in order |
| Mseed2ObspyStream.FlatAppend | mseed2obspy_stream.py:73-77 | the stations of two groups of networks are those of the first, then those of the second |
| Mseed2ObspyStream.FlatLength | mseed2obspy_stream.py:73-77 | the rows are as many as the stations of all networks |
| Mseed2ObspyStream.ReceiversLineCount | mseed2obspy_stream.py:71-78 | the file has 3 + (number of stations) lines |
| Mseed2ObspyStream.FlatOrder | mseed2obspy_stream.py:73-78 | station j of network i is on row (stations of the earlier networks) + j, with its network's code |
| Mseed2ObspyStream.HeaderCountsNetworks | mseed2obspy_stream.py:71 | the count line holds the number of networks |
| Mseed2ObspyStream.HeaderCountDiffersFromRows | mseed2obspy_stream.py:71-78 | one network of two stations gives count 1 and two rows |
| Mseed2ObspyStream.ReceiverRowLayout | mseed2obspy_stream.py:78 | a row starts with the network code, never cut, padded to 2; then a blank and the station code cut and padded to exactly 4; then a blank, the latitude, two blanks and the longitude |

## Left out

- Downloads, obspy I/O and plotting are outside the model: `read_events`, `download_waveform_data`, reading the mseed files, pickling, `subprocess.call`, and the `plot` method. Existence of a file stands in for reading it; a command is modelled as its argument vector. The files these steps write are not added to the modelled paths. These are the mseed files and `receivers.dat` inside the work directory, and `obspy_pkl_data/<event id 2>.pkl`. So the batch's final set of paths holds only the directories it creates.
- Malformed event or station files are not modelled, because only their existence is decided here.
- The station table is not linked to the `Process` action. `mseed2obspy_stream` writing `receivers.dat` in the work directory and reading `stations_dir` are not linked to it either, since both go through obspy objects.
- Latitudes and longitudes are not formatted as floats. `{lat:2.4f}` and `{lat:8.4f}` are kept as the coordinate text.
- StationInventory.ParseDat: does not model pandas type inference, NA values or the implicit index. It takes rows with fewer fields than columns as an error, while pandas fills them with NaN. It also takes a missing `lat` or `lon` column as an error, while pandas accepts it.
- StationInventory.Inventory.ReadFromDat: after a missing column the source has already replaced `stations` before raising KeyError. When `code` is missing, the stored frame is the unstripped one. When only `nw` is missing, its `code` column is already stripped of underscores. The model returns the error and leaves the table and its columns unchanged, because such a frame is not a sequence of stations.
- StationInventory.ParseDatOfDatText: the round trip holds for the text model, not for pandas' type inference. pandas reads a code such as `NA` or `NaN` as a missing value. It reads a column of all-digit codes as integers, and then `code.replace` raises AttributeError. The model keeps every field as text.
- EventIds.IsoDate: pads the year to four digits. glibc's `%Y`, which Python's `strftime` uses, prints a year below 1000 without padding. The same holds for EventIds.DayMonthYear. For such years the source's identifiers are shorter. The pattern `\d{4}-…` then finds no match in the pickle name, so the plotting scripts skip the event. EventIdPattern.ScanOfPklNames and WaveformsAzRecordSections.PlotsListedPickle therefore describe the source only for years 1000 to 9999.
- EventIds.ParseMagnitude: accepts only digits with an optional point and one digit. Python's `float` also takes signs, exponents, more decimals, `inf` and `nan`; a magnitude with more decimals would print differently in `{mag}` and `{mag:.1f}`.
- EventIds.MagText: very large magnitudes, which Python prints in exponent form, are not modelled.
- `%b` is taken in the English locale. `\d` and `str.split()` are taken over ASCII digits and ASCII whitespace, not all Unicode ones.
- `os.listdir` order is taken as given, as a sequence.
- `os.mkdir` failures and paths that exist as plain files rather than directories are not modelled. A missing `mseed_data` is modelled, as the failure `NoDataDir`.
- The `cur_dir` computed from `__file__` is a parameter.
- `out_file_sS` is computed and never used in the source. The model computes it too (`WaveformsAzRecordSections.OutFileSS`) and proves that different events get different names; it is in no command.
- Progress messages printed to the console are not modelled.
- The `in_file` argument of the `MyInventory` constructor is not modelled, because reading on construction is `read_fromDat`.

## Findings

| source | as written | input that shows it | evidently intended | confidence | as-written member | corrected member |
|---|---|---|---|---|---|---|
| station_inventory.py:38-39 | `append` assigns `[code, nw, lat, lon]` to the new row by position. After `read_fromDat` the frame's columns are `nw, code, lat, lon` (the order of the file's header, line 90), so the code goes into `nw` and the network into `code` | a written file is read back, then `Station("ANMO", "IU", "34.9459", "-106.4572")` is appended: the row holds code `IU` and network `ANMO` | the station is stored under its own column names whatever the column order | not executed | StationInventory.AppendAfterReadMislabels | StationInventory.Inventory.AppendByName |
