# UFSDPyDAQ core, modelled in Dafny

UFSDPyDAQ drives a laboratory test stand for ultra-fast silicon detectors.
A CAEN DT5742 digitizer records waveforms. A CAEN DT1471ET power supply biases
the sensor and the trigger, and a Python script links the two. Offline tools
then turn the recorded text files into ROOT trees, binary files and aligned
event sets. This project models three parts of that code:

- **The acquisition script (`main.py`).** Its parts are:
  - configuration reading (strict about repeated sections and options, DEFAULT carried into every section's view, basic `%` interpolation) and normalisation;
  - the connection gates (power supply first, supported models only, digitizer status `0x180`);
  - digitizer programming, including the internal-correction branch;
  - the demultiplexing of 2 groups x 9 channels into an 18-column sample matrix;
  - the per-bias drain loop with its event counter and its cooperative abort flag;
  - the fixed-order cleanup.

  The instruments are classes that append every call to a shared ghost log.
  The blocks the digitizer delivers and the keys the operator presses are scripts given to the model.
  This makes ordering, counting and abort properties provable.
- **The power-supply text protocol (`DT1471ET/python/highvoltage.py`).** This covers:
  - the `$BD:..,CMD:SET|MON,..` frames, proved to carry exactly their fields;
  - the `ERR` check and the extraction of the value from a reply;
  - the blocking loops (REMOTE wait, confirm loop, resource prompt), each run against a finite script of replies or operator answers.
- **The offline tools (`tools/*.py`).** This covers:
  - the `#`-header waveform reader that five tools repeat, proved to read back exactly what the acquisition writes;
  - the column routing onto 16 channel and 2 trigger slots (`txt2root.py`), and onto channels, triggers and extras (`analyzer.py`, `mean.py`);
  - the two `TreeFile` sinks with their set / clear / fill semantics;
  - the worker ranges of `dtoD.py`;
  - the integer part of the trigger alignment;
  - the outlier scan of `meanmax.py`;
  - the big-endian 16-bit writer of `txt2bin.py`.

Python exceptions are values (`Base.Result`, `Base.Fault`). An `exit()` or a
loop that would wait forever for an instrument is an `Outcome` (`Exited`,
`Waiting`).

Modules, one per file: `Base`, `Text`, `Buffers`, `Config`, `WaveText`,
`Acquisition`, `HighVoltage`, `Txt2Root`, `DtoD`, `Analysis`, `MeanMax`,
`Txt2Bin`.

## Model

| member | source | states |
|---|---|---|
| Text.JoinSplit | main.py:223 | splitting at a separator loses nothing: joining the pieces gives the string back |
| Text.SplitJoin | main.py:223 | separator-free pieces joined with a separator split back into exactly those pieces |
| Text.ParseIntDecimal | main.py:230 | `int(str(n)) == n` for every integer |
| Text.ParseRealDecimal | DT1471ET/python/highvoltage.py:74 | `float(str(n)) == n` for every integer |
| Buffers.PyIndex | tools/txt2root.py:60 | a list index is valid exactly in `-n .. n-1`, and a negative one counts from the end |
| Buffers.Slice | tools/meanmax.py:20 | `s[a:b]` clamps its bounds, and element `k` of the slice is `s[a+k]` |
| Buffers.ButLast | tools/meanmax.py:22 | `s[:-n]` is the prefix that leaves out the last `n` elements, or empty for a shorter list |
| Buffers.Push | tools/txt2root.py:61-63 | the push loop on an emptied vector holds the first `length` values of `data`; it raises IndexError exactly when `length` exceeds the data |
| Buffers.PushedWhole | tools/dtoD.py:74-78 | a vector refilled from data at least `length` long holds exactly `data[:length]` and raises nothing |
| Config.ParseAllPieces | main.py:223 | a list the comprehension builds holds the integer of each piece, in order |
| Config.ParseAllFails | main.py:223 | the comprehension fails only when some piece is not an integer |
| Config.ConvertCases | main.py:222-232 | only SENSOR_BIAS can raise, and only with ValueError; a value that stays text is text that `int` rejects |
| Config.ConvertTokens | main.py:205-206 | outside SENSOR_BIAS, YES/NO become True/False and FIRST/SECOND/BOTH become 0b01/0b10/0b11 |
| Config.ConvertInt | main.py:228-232 | outside SENSOR_BIAS, any other text becomes `int(text)` when that succeeds and otherwise stays text |
| Config.AddOptionsDistinct | main.py:211 | strict reading adds the options of a header exactly when no name ends up twice in the section, keeping their order; otherwise DuplicateOptionError |
| Config.ReadSpec | main.py:209-211 | reading succeeds exactly when no named header and no option name repeats (all DEFAULT headers forming one section), and then holds the DEFAULT options and the named sections as written; otherwise DuplicateSectionError or DuplicateOptionError |
| Config.PlainText | main.py:214-215 | a value without `%` reaches the table as written |
| Config.EscapedRoundTrip | main.py:214-215 | `%%` is read as `%`: a text with every `%` doubled expands to that text |
| Config.Substituted | main.py:214-215 | `%(name)s` is replaced by the view's text of `name` |
| Config.StrayPercent | main.py:214-215 | a `%` followed by neither `%` nor `(`, or ending the value, raises InterpolationSyntaxError |
| Config.ViewLast | main.py:214 | a section's view gives a name exactly when the section or DEFAULT sets it, with the section's own text before the default, expanded |
| Config.ViewsLast | main.py:213-215 | updating with the views of the parts in order leaves each name with its text in the last part whose view gives it |
| Config.SetterCases | main.py:213 | with DEFAULT visited first, a default option is set last by the last section (by DEFAULT itself when there is none), any other option by the last section that sets it |
| Config.AssignLast | main.py:215 | `CONFIG.update` with a view sets every name the view gives to its text there and leaves every other name as it was |
| Config.MergedLast | main.py:213-215 | after the loop the table holds exactly the names the views give, as spelled, each with its text in the last view that gives it |
| Config.ConfiguredText | main.py:213-215 | after the loop each name holds the expanded text of the part that sets it last, and names no part sets are absent |
| Config.DefaultReassigned | main.py:213-215 | with `[DEFAULT] X=1`, `[A] X=2` and `[B]` the script ends with `X = 1`, because the view of `B` carries the default again |
| Config.Update | main.py:215 | the update loop gives `CONFIG.update`'s table and keeps the insertion order free of repeats |
| Config.Normalise | main.py:220-232 | the conversion loop converts every option, or raises ValueError exactly when some bias list is malformed |
| Config.ParseConfig | main.py:208-232 | reading, the loop over the views and the conversion loop together give `Configured`: a duplicate, an interpolation error or a malformed bias list raises, otherwise every option is converted |
| Config.ParseDecimals | main.py:223 | integers written with `str` are read back piece by piece |
| Config.BiasRoundTrip | main.py:222-223 | a comma-separated bias list between any two delimiters reads back as that list: `"[100,200]"` gives `[100, 200]` |
| Config.IntRoundTrip | main.py:229-232 | any other option written as `str(n)` reads back as the integer `n` |
| Config.ParsedOption | main.py:208-232 | after a successful parse the table holds exactly the names some part sets, each converted from the expanded text of the part that sets it last |
| Acquisition.MaxSize | main.py:95-98 | the row count bounds every channel size among the columns seen and equals one of them |
| Acquisition.CountRows | main.py:91-98 | the size loop yields the largest `ChSize` of the 18 columns |
| Acquisition.FillMatrix | main.py:100-112 | the fill loop yields the event's matrix: column `k` row `j` is sample `j` of group `k/9` channel `k%9`, absent groups stay 0; IndexError exactly when a present channel is shorter than the row count |
| Acquisition.FillRow | main.py:103-112 | one row of the fill loop keeps the partial-matrix invariant, or fails only on an unreadable event |
| Acquisition.FilledAll | main.py:102-112 | once every row is filled the matrix is the event's and no read went past a channel |
| Acquisition.EventMatrix | main.py:90-112 | the size loop and the fill loop together give the event's matrix |
| Acquisition.Acquire | main.py:85-120 | one `readData`, then one save per event numbered on from the count so far; returns exactly the block's event count; waits when no block is left |
| Acquisition.HeaderLine | main.py:115-116 | an event header is a single line |
| Acquisition.SavedFault | main.py:89-118 | every event of a block is written unless one is unreadable; then the events before it are written and IndexError is raised |
| Acquisition.SavedEvents | main.py:89-118 | event `i` of a block is written as its matrix under the header numbered `first + i` |
| Acquisition.SavedNumbers | main.py:115-116 | records are numbered consecutively from the count taken so far, each with its event's trigger time tag |
| Acquisition.SavedAppend | main.py:115 | writing two blocks in turn numbers the second from where the first stopped |
| Acquisition.SavedWellFormed | main.py:101-118 | every written block has 18 columns of one common length and a one-line header |
| Acquisition.SavedRead | main.py:118 | the tools' reader gives back the saved event matrices of a block, one per header, in order |
| Acquisition.Digitizer.constructor | main.py:162 | opening the digitizer records the open call and starts with an empty buffer |
| Acquisition.Digitizer.Reset | main.py:163 | records one reset |
| Acquisition.Digitizer.GetInfo | main.py:164-165 | returns the model name and records the call |
| Acquisition.Digitizer.Set | main.py:176-200 | records one programming call with its arguments |
| Acquisition.Digitizer.Status | main.py:20 | returns the status word and records the call |
| Acquisition.Digitizer.AllocateEvent | main.py:27 | records the allocation |
| Acquisition.Digitizer.MallocBuffer | main.py:28 | records the allocation |
| Acquisition.Digitizer.StartAcquisition | main.py:65 | records the start |
| Acquisition.Digitizer.StopAcquisition | main.py:79 | records the stop |
| Acquisition.Digitizer.FreeEvent | main.py:125 | records the release |
| Acquisition.Digitizer.FreeBuffer | main.py:126 | records the release |
| Acquisition.Digitizer.Close | main.py:129 | records the close |
| Acquisition.Digitizer.ReadData | main.py:86 | fetches the next scripted block into the buffer; reports whether one was left |
| Acquisition.Digitizer.GetNumEvents | main.py:87 | the number of events in the buffer |
| Acquisition.Digitizer.GetEvent | main.py:90 | event `i` of the buffer |
| Acquisition.Supply.constructor | main.py:144 | opening the supply records the open call |
| Acquisition.Supply.EnableChannel | main.py:43-44 | records one ON for the channel |
| Acquisition.Supply.SetVoltage | main.py:46 | records one confirmed bias setting |
| Acquisition.Supply.DisableChannel | main.py:132-133 | records one disable for the channel |
| Acquisition.PressedQuit | main.py:234-243 | after any keys the flag is set exactly when it was set already or one key was `q`: nothing ever clears it |
| Acquisition.Keyboard.constructor | main.py:35-36 | the flag starts clear |
| Acquisition.Keyboard.Keypress | main.py:234-243 | a key sets the flag exactly when it is `q`, and never clears it |
| Acquisition.Keyboard.Deliver | main.py:256-259 | the listener applies the keys pressed before the next check to the flag |
| Acquisition.Flags | main.py:242-243 | the flag each check finds is set exactly when `q` was pressed during that pass |
| Acquisition.Check | main.py:72 | the check returns the flag after that pass's keys |
| Acquisition.ProgramCorrection | main.py:196-200 | the correction tables are loaded and enabled exactly when USE_INTERNAL_CORRECTION is set, and programming ends with the post-trigger size 50 |
| Acquisition.ProgramDigitizer | main.py:173-201 | issues the programming calls in order: acquisition, trigger, processing |
| Acquisition.ProgramAcquisition | main.py:176-183 | frequency 0, record length 1024, 1023 events per transfer, software mode, TRG IN off, TR0 on and digitised |
| Acquisition.ProgramTrigger | main.py:186-193 | group mask, both polarities positive, then DC offset and threshold from the configuration |
| Acquisition.ProgramProcessing | main.py:196-200 | the correction calls only when configured, then the post-trigger size |
| Acquisition.ConnectHighVoltage | main.py:142-156 | succeeds exactly when the supply connected and reports a model in the allow-list; otherwise exits |
| Acquisition.ConnectDigitizer | main.py:160-171 | opens and resets the board, then succeeds exactly when its model is in the allow-list; otherwise exits |
| Acquisition.Init | main.py:14-30 | the supply is connected before the digitizer; a status other than 0x180 exits before the event and buffer are allocated |
| Acquisition.Cleanup | main.py:122-138 | stop, free event, free buffer, close, then disable the sensor channel and then the trigger channel; the supply is never closed |
| Acquisition.DrainBias | main.py:59-79 | the drain of one bias, from a count of 0, makes the calls and reaches the count of the `Drain` specification |
| Acquisition.DrainStep | main.py:66-77 | one pass either ends the drain or continues it from the new count |
| Acquisition.DrainOnce | main.py:66-77 | one pass: `acquire`, then the flag check, which stops the acquisition and cleans up when set |
| Acquisition.DrainPass | main.py:66-77 | a pass below the quota starves with no block left, breaks on an unreadable event, aborts on a set flag, and otherwise goes on |
| Acquisition.DrainCount | main.py:66-67 | the count never decreases; a full drain has passed MAX_EVENTS and overshoots it by at most the largest block; a starved or broken drain stays within it |
| Acquisition.DrainRecords | main.py:66-67 | a full or aborted drain has written every event of the blocks it consumed, in order, and its count grew by their number |
| Acquisition.DrainNumbering | main.py:115 | the `i`-th event a full or aborted drain writes is numbered `events + i`, without gaps |
| Acquisition.DrainAbort | main.py:72-77 | a drain is aborted only when some check found the flag set |
| Acquisition.DrainOps | main.py:66-77 | a drain only reads the board and saves events |
| Acquisition.RunBias | main.py:52-81 | one bias: set and confirm it, open its file, start, drain, then stop (or stop, clean up and exit on abort) |
| Acquisition.Start | main.py:34-83 | clears the flag, prepares both channels, then takes every bias in list order as the `Sweep` specification does |
| Acquisition.SweepFiles | main.py:51-64 | each bias opens its own file, in list order; the files opened are a prefix of the bias list, all of it when every drain filled |
| Acquisition.BiasFiles | main.py:61-64 | one bias opens exactly its own file |
| Acquisition.SweepAbort | main.py:72-77 | a sweep is aborted only when some check found the flag set |
| Acquisition.SweepAbortEnd | main.py:72-77 | an aborted sweep ends with the stop and then the cleanup calls |
| Acquisition.Session | main.py:249-264 | exits when a setup gate fails; otherwise setup, then the sweep, then the cleanup; without ENABLE_KEYBOARD it is never aborted |
| Acquisition.SessionEnd | main.py:263-264 | a session that completes or is aborted ends with the cleanup calls |
| Acquisition.Unabortable | main.py:256-260 | without the keyboard listener a sweep is never aborted |
| Acquisition.SweepQuit | main.py:234-243 | a sweep is aborted only if `q` was pressed during one of its passes |
| HighVoltage.DecodeSetFrame | DT1471ET/python/highvoltage.py:35-42 | a SET frame carries exactly its board, channel and parameter, and a `VAL` field only when a value is given |
| HighVoltage.DecodeMonFrame | DT1471ET/python/highvoltage.py:46-51 | a MON frame carries exactly its board and parameter, and a `CH` field before `PAR` only when a channel is given |
| HighVoltage.Check | DT1471ET/python/highvoltage.py:113-118 | a reply passes exactly when `ERR` occurs nowhere in it |
| HighVoltage.CheckRejectsErr | DT1471ET/python/highvoltage.py:113-118 | any reply containing `ERR` fails |
| HighVoltage.QueryResultOfReply | DT1471ET/python/highvoltage.py:53-55 | a reply whose third field is `key:text` yields `text` right-stripped; a reply containing ERR yields None |
| HighVoltage.PollUntilWaiting | DT1471ET/python/highvoltage.py:26-31 | a polling loop waits exactly when every reply it was given was rejected |
| HighVoltage.PollStep | DT1471ET/python/highvoltage.py:68-71 | one pass stops on an accepted reply or an exception, and otherwise polls again |
| HighVoltage.PollUntilDone | DT1471ET/python/highvoltage.py:68-71 | the loop succeeds exactly when a reply is accepted before any raises, and then it has consumed that reply and no more |
| HighVoltage.ConfirmedReadback | DT1471ET/python/highvoltage.py:65-71 | a confirmed setting returns only after a readback within 1.5 V of the target, all earlier ones outside |
| HighVoltage.ValidResourceNames | DT1471ET/python/highvoltage.py:100-104 | an answer is accepted exactly when it is all digits and `int` of it is below the number of resources; `int` reads it as its digit value, so a sign, a space or any other character makes it invalid and `"007"` names resource 7 |
| HighVoltage.DecimalResourceNames | DT1471ET/python/highvoltage.py:100-104 | the decimal name of `n` is accepted exactly when `0 <= n < num` |
| HighVoltage.PromptResource | DT1471ET/python/highvoltage.py:85-111 | exits on an empty resource list; otherwise returns the resource the first valid answer names, or waits when no answer is valid |
| HighVoltage.HandshakeDone | DT1471ET/python/highvoltage.py:26-33 | construction completes only after a BDCTR reply containing REMOTE, every earlier one lacking it, and the model is the value of the reply after it |
| HighVoltage.PickResource | DT1471ET/python/highvoltage.py:16 | a given resource index picks that resource, negative indices counting from the end, IndexError otherwise |
| HighVoltage.Link.Query | DT1471ET/python/highvoltage.py:53 | sends a frame and answers with the next scripted reply |
| HighVoltage.HighVoltage.constructor | DT1471ET/python/highvoltage.py:9-33 | connected exactly when the chosen resource (asked for, or `list_resources()[resource]`) opens, and then on that session; the outcome and the model are those of the REMOTE wait and the BDNAME read on that session's replies; a bad index raises IndexError, no resource exits, a resource that does not open leaves the object unconnected; no other session's frames or replies change |
| HighVoltage.HighVoltage.AwaitRemote | DT1471ET/python/highvoltage.py:26-33 | BDCTR is polled until the status contains REMOTE, and only then BDNAME is read |
| HighVoltage.HighVoltage.PollRemote | DT1471ET/python/highvoltage.py:26-31 | the REMOTE loop sends one BDCTR frame per reply and ends as the polling specification says |
| HighVoltage.HighVoltage.SetQuery | DT1471ET/python/highvoltage.py:35-44 | sends one SET frame, with `VAL` only when a value is given; the reply is only checked |
| HighVoltage.HighVoltage.GetQuery | DT1471ET/python/highvoltage.py:46-55 | sends one MON frame and returns the value of its reply |
| HighVoltage.HighVoltage.GetVoltage | DT1471ET/python/highvoltage.py:73-74 | one VMON frame; the reading of its reply |
| HighVoltage.HighVoltage.GetCurrent | DT1471ET/python/highvoltage.py:76-77 | one IMON frame; the reading of its reply |
| HighVoltage.HighVoltage.SetVoltage | DT1471ET/python/highvoltage.py:65-71 | one VSET frame; with confirm, VMON is read until a readback lies within 1.5 V of the value |
| HighVoltage.HighVoltage.AwaitReadback | DT1471ET/python/highvoltage.py:67-71 | the confirm loop sends one VMON per reply and ends as the polling specification says |
| HighVoltage.HighVoltage.EnableChannel | DT1471ET/python/highvoltage.py:57-59 | exactly one value-less ON frame, consuming one reply |
| HighVoltage.HighVoltage.DisableChannel | DT1471ET/python/highvoltage.py:61-63 | VSET 0 (confirmed when asked) before OFF, and OFF only once the ramp returned; the replies left on the link in each case |
| HighVoltage.HighVoltage.GetModel | DT1471ET/python/highvoltage.py:79-80 | the model read at construction, or AttributeError exactly when `self.model` was never assigned (the resource did not open, or the handshake did not complete) |
| WaveText.Blank | tools/txt2root.py:98 | a header opens an event of 18 empty columns |
| WaveText.Lines | tools/txt2root.py:94 | the file's lines, each keeping its newline, only the last possibly without |
| WaveText.ReadEvents | tools/txt2root.py:91-103 | the reading loop yields the events of the `Read` specification (the same loop is repeated at tools/analyzer.py:29-42, tools/mean.py:30-43, tools/meanmax.py:6-18 and tools/txt2bin.py:4-16) |
| WaveText.AppendRow | tools/txt2root.py:100-102 | field `j` of a data line is parsed with `int` and appended to column `j` |
| WaveText.AddFieldsShape | tools/meanmax.py:15-17 | appending a data line never changes the number of columns |
| WaveText.ReadFromCount | tools/meanmax.py:9-17 | past line 0, each header pushes exactly one event of 18 columns |
| WaveText.ReadCount | tools/meanmax.py:9-18 | a file read without error is empty, giving `[None]`, or opens with a header and gives one 18-column event per header line |
| WaveText.ReadFormat | tools/analyzer.py:29-42 | reading the text of well-formed event blocks gives exactly those events back, in order |
| Txt2Root.MaskLayout | tools/txt2root.py:14-34 | mask 0b11 lays out `chn0..15` and `trg0, trg1`; 0b01 `chn0..7` and `trg0`; 0b10 `chn8..15` and `trg1`; any other mask nothing |
| Txt2Root.Times | tools/txt2root.py:53-57 | `samples` instants `1 / frequency` apart from `abs` |
| Txt2Root.TreeFile.constructor | tools/txt2root.py:6-34 | one empty vector per branch the mask lays out, nothing committed |
| Txt2Root.TreeFile.Clear | tools/txt2root.py:40-47 | empties the time vector and every channel and trigger vector; layout and entries stay |
| Txt2Root.TreeFile.Fill | tools/txt2root.py:36-38 | commits the current vectors as one entry, then empties them |
| Txt2Root.TreeFile.SetTime | tools/txt2root.py:53-57 | refills the time vector; a zero frequency raises ZeroDivisionError and changes nothing |
| Txt2Root.TreeFile.SetChannel | tools/txt2root.py:59-63 | only the addressed channel changes, to the first `length` values; a bad index raises IndexError first |
| Txt2Root.TreeFile.SetTrigger | tools/txt2root.py:65-69 | only the addressed trigger changes, to the first `length` values; a bad index raises IndexError first |
| Txt2Root.RouteOnto | tools/txt2root.py:108-113 | routing is a one-to-one map of the 18 columns onto the 16 channel and 2 trigger vectors |
| Txt2Root.RouteCases | tools/txt2root.py:108-113 | columns 0..7 go to channels 0..7, 8 to trigger 0, 9..16 to channels 8..15, 17 to trigger 1 |
| Txt2Root.ChannelColumnCases | tools/txt2root.py:113 | channels 0..7 read columns 0..7 and channels 8..15 read columns 9..16 |
| Txt2Root.ChannelColumnsDiffer | tools/txt2root.py:113 | different channels read different columns |
| Txt2Root.RouteReads | tools/txt2root.py:108-113 | a column routed to a channel is read by that channel and by no trigger, and vice versa |
| Txt2Root.RouteColumn | tools/txt2root.py:108-113 | one column is copied into the vector it is routed to; IndexError past column 17 or for a column shorter than 1024 |
| Txt2Root.ConvertEvent | tools/txt2root.py:107-114 | one event is committed as its routed entry exactly when it fits, with the vectors emptied again |
| Txt2Root.Converted | tools/txt2root.py:105-114 | one entry per event exactly when every event is present and fits |
| Txt2Root.ConvertedEntries | tools/txt2root.py:106-114 | in each entry, channel `k` is the first 1024 samples of column `k + k/8` and trigger `t` those of column `9t + 8` |
| Txt2Root.ConvertEvents | tools/txt2root.py:105-116 | the commit loop yields the entries of the `Converted` specification |
| Txt2Root.Convert | tools/txt2root.py:90-116 | reading and then committing gives the entries of the file's events |
| Txt2Root.ConvertFormat | tools/txt2root.py:90-114 | converting the text the acquisition writes commits one entry per event |
| Txt2Root.ConvertedRows | tools/txt2root.py:106-114 | the entries committed for acquisition blocks are their rows, one per block |
| Txt2Root.RowColumns | tools/txt2root.py:108-113 | in a block's entry, channel `k` is the block's column `k + k/8` and trigger `t` its column `9t + 8` |
| DtoD.Sink.constructor | tools/dtoD.py:20-48 | 16 empty channel vectors, 2 empty trigger vectors, zero scalars, nothing committed |
| DtoD.Sink.Clear | tools/dtoD.py:54-65 | zeroes bias, frequency and length, empties `pos` and every vector; entries stay |
| DtoD.Sink.Fill | tools/dtoD.py:50-52 | commits every branch as one entry, then clears |
| DtoD.Sink.SetChannel | tools/dtoD.py:74-78 | only the addressed channel changes, to the first `length` values; a bad index raises IndexError first |
| DtoD.Sink.SetTrigger | tools/dtoD.py:80-84 | only the addressed trigger changes, to the first `length` values; a bad index raises IndexError first |
| DtoD.Sink.SetPosition | tools/dtoD.py:92-94 | appends `x` then `y` without emptying `pos` |
| DtoD.Sink.SetBias | tools/dtoD.py:96-97 | overwrites the bias only |
| DtoD.Sink.SetFrequency | tools/dtoD.py:86-87 | overwrites the frequency only |
| DtoD.Sink.SetEventLength | tools/dtoD.py:89-90 | overwrites the event length only |
| DtoD.Copy | tools/dtoD.py:133-144 | the committed entry holds the first 1024 samples of every vector, the first two coordinates and the three scalars |
| DtoD.CopyEntry | tools/dtoD.py:112-146 | one input entry is committed as its copy exactly when every read stays inside it; IndexError otherwise |
| DtoD.Starts | tools/dtoD.py:161 | every start index lies in `a .. tot-1` |
| DtoD.Workers | tools/dtoD.py:161 | `range` raises ValueError exactly when the tree has fewer than 8 entries |
| DtoD.ChunkEnd | tools/dtoD.py:107-110 | the end as written never passes `tot` |
| DtoD.ShareEnd | tools/dtoD.py:107-110 | the corrected end never passes `tot`, and is the worker's whole share whenever that fits |
| DtoD.StartsPartition | tools/dtoD.py:161 | with ends cut at `tot`, the workers from `a` on hold each entry from `a` on exactly once |
| DtoD.SharesPartition | tools/dtoD.py:107-111 | with the corrected end, the workers copy every entry of a tree of at least 8 entries exactly once |
| DtoD.ChunkEndDropsLast | tools/dtoD.py:107-110 | as written, entry 16 of a 17-entry tree belongs to no worker |
| DtoD.Parse | tools/dtoD.py:99-154 | the worker's loop yields what the `Parsed` specification commits |
| DtoD.CopiedEntries | tools/dtoD.py:111-146 | a worker that finishes commits one copy per index of its range, in order |
| DtoD.SmallTreeStops | tools/dtoD.py:150-151 | worker 0 of a tree of 8 to 99 entries stops with ZeroDivisionError after its first entry |
| Analysis.SplitColumns | tools/analyzer.py:44-50 | channels are columns 0-7 and 9, triggers 8 and 17, extra 10 and 11; 12-16 are dropped |
| Analysis.Separated | tools/analyzer.py:44-50 | three parallel lists, one item per event, or TypeError exactly when some event is missing |
| Analysis.Separate | tools/analyzer.py:44-50 | the split loop yields the `Separated` specification |
| Analysis.Parse | tools/analyzer.py:28-50 | reading then splitting (repeated at tools/mean.py:29-51) |
| Analysis.FirstBelow | tools/analyzer.py:75-77 | the smallest index whose sample is below the bound, or StopIteration exactly when there is none |
| Analysis.MinFromBounds | tools/analyzer.py:79-84 | the minimum is at most 1024 and at most every event's crossing, and it is 1024 or one of them |
| Analysis.DelayNonNegative | tools/analyzer.py:86-87 | every delay is at least zero, and the earliest event is not shifted |
| Analysis.Analyzer.ComputeMinimum | tools/analyzer.py:79-84 | the loop yields the minimum crossing |
| Analysis.Analyzer.IndexDelay | tools/analyzer.py:74-87 | a successful first call fills the cache with the minimum crossing, a failed one leaves it empty, and a filled cache never changes; returns the target's crossing minus the minimum (repeated at tools/mean.py:75-88) |
| Analysis.Analyzer.ApplyTimeCorrection | tools/analyzer.py:52-61 | every event is shifted by its own delay and padded with its window mean |
| Analysis.ShiftColumns | tools/analyzer.py:55-59 | each column of one event is shifted and padded |
| Analysis.ShiftKeepsLength | tools/analyzer.py:58-59 | a column keeps its length: sample `k` is old sample `k + delay`, the last `delay` samples are the fill value (repeated at tools/mean.py:59-60) |
| Analysis.CorrectedEvents | tools/analyzer.py:52-61 | every corrected event is its original shifted by its own non-negative delay |
| Analysis.ScanNamePosition | tools/analyzer.py:15 | the position text of a scan file name `<prefix>_x<x>y<y>.txt` is `x<x>y<y>` |
| Analysis.ShownSpotRoundTrip | tools/analyzer.py:115-116 | the spot shown for position `x<x>y<y>` is `(800 - x, y)` |
| Analysis.MeanSpotRoundTrip | tools/mean.py:15-17 | the mean script reads back `x` without offset and the text of `y` |
| MeanMax.ColumnHits | tools/meanmax.py:25-27 | every reported sample of a column deviates from the band, in increasing order |
| MeanMax.EventHits | tools/meanmax.py:21-27 | every reported sample deviates from its column's reference band, columns in order |
| MeanMax.ScanColumn | tools/meanmax.py:25-27 | the sample loop reports what `ColumnHits` specifies |
| MeanMax.ScanEvent | tools/meanmax.py:21-27 | the column loop reports what `EventHits` specifies |
| MeanMax.Scan | tools/meanmax.py:20-27 | the event loop reports what `Scanned` specifies, raising TypeError at a missing event |
| MeanMax.Run | tools/meanmax.py:3-27 | reading then scanning |
| MeanMax.ColumnHitsComplete | tools/meanmax.py:25-27 | every deviating sample of a column is reported |
| MeanMax.EventHitsComplete | tools/meanmax.py:21-27 | every deviating sample of every column is reported |
| MeanMax.EventHitsExact | tools/meanmax.py:21-27 | a sample is reported exactly when it deviates from its column's band |
| MeanMax.SecondOnly | tools/meanmax.py:20 | only the second event is scanned; a file of fewer than two events reports nothing |
| MeanMax.ReferenceIgnoresTail | tools/meanmax.py:22-24 | a column's band does not depend on its last 50 samples |
| Txt2Bin.ToBytes | tools/txt2bin.py:22 | two bytes, high byte first, that decode to the sample, exactly when it is in `0..65535`; OverflowError otherwise |
| Txt2Bin.Encode | tools/txt2bin.py:21-22 | two bytes per sample |
| Txt2Bin.Decode | tools/txt2bin.py:24-25 | one sample in range per byte pair |
| Txt2Bin.DecodeEncode | tools/txt2bin.py:22 | every sample written reads back |
| Txt2Bin.EncodeDecode | tools/txt2bin.py:22 | every even-length byte file is the writing of its decoded samples |
| Txt2Bin.FirstOut | tools/txt2bin.py:22 | the samples before it fit, and the one at it does not |
| Txt2Bin.WriteColumn | tools/txt2bin.py:21-22 | the sample loop writes the bytes of the samples up to the first that does not fit |
| Txt2Bin.WriteEvent | tools/txt2bin.py:20-22 | the column loop writes the event's samples column by column up to the first that does not fit |
| Txt2Bin.Write | tools/txt2bin.py:18-22 | the three loops produce the `Written` output |
| Txt2Bin.Run | tools/txt2bin.py:3-22 | reading then writing |
| Txt2Bin.WrittenRoundTrip | tools/txt2bin.py:19-22 | a file written without an exception is two bytes per sample and decodes to the samples in event, column, sample order |
| Txt2Bin.WrittenWhole | tools/txt2bin.py:19-22 | writing completes exactly when every event is present and every sample fits in two bytes |
| Txt2Bin.EmptyText | tools/txt2bin.py:4-22 | an empty file reads as `[None]`, so writing it raises TypeError and leaves the output empty |

## Left out

- Device I/O is not modelled. This covers pyvisa sessions, the digitizer driver (`modules.digitizer` is not part of this model), `time.sleep`, and ROOT `TFile`/`TTree` writes and closes. Replies, blocks, resources and operator answers are scripts given to the model.
- Filesystem and clock effects are not modelled. This covers `os.mkdir`, `os.rename`, `os.listdir`, `os.makedirs`, `now()` and the file paths. Saving is modelled as `Save` records in the call log, with the text layout as `WaveText.Format`.
- Printing is left out. It has no effect on the modelled state.
- The `pynput` listener thread is concurrent. Its effect is modelled as the keys that reach the flag before each check.
- The unbounded loops are run against finite scripts. These are the drain loop, the confirm loop, the REMOTE wait and the resource prompt. When a script ends, the model stops with `Waiting`; the program would go on blocking.
- Floating point is modelled only in part:
  - `np.mean` and `2 * np.std` are parameters of `MeanMax` and of `Analysis.Analyzer.ApplyTimeCorrection`.
  - Float conversions of integer samples are the identity.
- Acquisition.Settings: the session takes the configuration as a typed record. It assumes every CONFIG key it reads is present and holds its converted kind: integers for ids, channels, biases, masks and MAX_EVENTS, booleans for USE_INTERNAL_CORRECTION and ENABLE_KEYBOARD. The KeyError of a missing key and the TypeError of a value left as text (`MAX_EVENTS = many` fails at `events <= max`) are not modelled. Nor is Python's truth test of a non-boolean value at `if CONFIG[...]`. No function derives the record from the table `Config.Configured` builds, because main.py reads each key lazily where it uses it, so an error's place among the instrument calls depends on which key fails.
- Acquisition.FillMatrix: samples are integers, while `main.py` fills a float matrix from the driver's `DataChannel`. A read past a channel's `ChSize` is taken to raise IndexError, which is an assumption about a driver that is not part of this model.
- Acquisition.SavedRead: the exact read-back holds for integral samples only. The `%.0f` rounding of a non-integral sample (for example with the digitizer's internal correction on) is not modelled.
- HighVoltage.ValidResourceNames: `str.isdigit` is modelled on ASCII digits only. Other Unicode digits (`"٣"`, `"²"`) are rejected, and the model keeps asking, where the program would select a resource or raise ValueError.
- The text layer of the INI reader is not modelled: comments, continuation lines, whitespace around names and values, and a missing file. The file is given as its headers, each with its option names and raw texts. `optionxform` is the identity in `main.py`, so names are kept as written.
- `_removeShotPeaks`, `_eventsMean`, `_dcCouple`, `show`'s plotting and `tools/heat.py` are not part of this model.
- `tools/txt2bin.py:24-26` is syntactically incomplete (`while` with no condition), so only the writing part is modelled. `Txt2Bin.Decode` is the reading the byte format is designed for.
- The GUI (`modules/gui`) is not part of this model: it is wxPython widget code.
- `modules/stage.py` is not part of this model: it is a wrapper over foreign `libximc` calls.
- `modules/tree.py` is not part of this model: it is a broken twin of the `tools/txt2root.py` sink, which is modelled instead.
- `tools/mlp`, `tools/txt2npz.py` and the multiprocessing `Pool` of `tools/dtoD.py` are not part of this model. Only each worker's range and loop are modelled.
- A scan-point (X/Y) generator does not appear in the modelled code, so none is modelled. `main.py` iterates over `SENSOR_BIAS` only.
- HighVoltage.HighVoltage.GetVoltage: `float` of the VMON reply is modelled on fixed-point decimals only, with optional whitespace, a sign and at most one point. Exponents, `inf`, `nan` and digit underscores read as ValueError.
- HighVoltage.HighVoltage.GetCurrent: `float` of the IMON reply goes through the same reading, so it has the same limits as GetVoltage.
- Text.ParseIntDecimal: `int` is modelled on ASCII digits only. Digit underscores and non-ASCII digits read as ValueError.
- MeanMax.ColumnHits: the band is a parameter with real bounds. For a column of 50 samples or fewer, `channel[:-50]` is empty, numpy's mean and standard deviation are NaN, and `tools/meanmax.py` reports no sample of that column. The model reports whatever the band parameter gives for the empty reference.
- Txt2Root.TreeFile.SetTime: the time axis is exact real arithmetic, not IEEE doubles.
- Analysis.Analyzer.ApplyTimeCorrection: Python rewrites the event lists in place through aliases of `data`; the model returns the corrected data as a new value. The window mean is a parameter, and a delay longer than a column (where `channel[delta:]` is empty) is not given a length property.
- Acquisition.Supply.SetVoltage: the script's supply calls are recorded as single calls. The frames they send and their confirm loops are proved in `HighVoltage.HighVoltage`.
- `main.py` as written never calls `hv.close`. The model states this rather than omitting it: `Acquisition.Cleanup` has no close call.
- `getQuery` takes the text between the first and the second colon of the third field, not everything after the first colon, because `split(":")[1]` stops at the second colon. The model follows the code (`HighVoltage.QueryResultOfReply` requires a colon-free value).

## Findings

| source | as written | input that shows it | evidently intended | confidence | as-written member | corrected member |
|---|---|---|---|---|---|---|
| tools/dtoD.py:107-110 | when `i + tot // 8 > tot` the worker's end is `tot - i` | `tot = 17`: workers start at 0, 2, ..., 16; the worker at 16 gets `range(16, 1)`, so entry 16 is copied by no worker | `end = min(i + tot // 8, tot)` | not executed | DtoD.ChunkEndDropsLast | DtoD.SharesPartition |
