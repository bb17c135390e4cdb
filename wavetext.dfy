/** The waveform text files the acquisition writes and the offline tools
    read back. A file is a sequence of events; each event is a header line
    starting with `#` followed by one line per sample, holding the 18 channel
    samples of that instant separated by commas.

    Every tool reads such a file with the same loop: a `#` line opens an
    event of 18 empty columns (pushing the previous event unless it is the
    first line of the file), a data line appends `int(field j)` to column
    `j`, and the event still open at the end is pushed after the loop. */
module WaveText {
  import opened Base
  import opened Text

  /** Columns per event: 2 groups of 8 channels plus one fast trigger each. */
  const Columns: nat := 18

  type Column = seq<int>
  type Event = seq<Column>

  /** `[[] for k in range(18)]` */
  function Blank(): (e: Event)
    ensures |e| == Columns && forall c :: 0 <= c < |e| ==> e[c] == []
  {
    seq(Columns, c => [])
  }

  // ------------------------------------------------------------------ lines

  /** The lines of a text file in the order `for line in file` yields them:
      every line keeps its `\n`, and only the last may lack one. */
  function Lines(text: string): (lines: seq<string>)
    ensures forall k :: 0 <= k < |lines| ==> lines[k] != []
    ensures forall k :: 0 <= k < |lines| - 1 ==> lines[k][|lines[k]| - 1] == '\n'
    ensures forall k, i :: 0 <= k < |lines| && 0 <= i < |lines[k]| - 1 ==> lines[k][i] != '\n'
    decreases |text|
  {
    if text == [] then []
    else
      var rest := Lines(text[1..]);
      if text[0] == '\n' || rest == [] then [[text[0]]] + rest
      else
        assert forall i :: 1 <= i < |rest[0]| + 1 ==> ([text[0]] + rest[0])[i] == rest[0][i - 1];
        [[text[0]] + rest[0]] + rest[1..]
  }

  function Concat(lines: seq<string>): string
  {
    if lines == [] then "" else lines[0] + Concat(lines[1..])
  }

  /** Splitting into lines loses nothing. */
  lemma {:induction false} ConcatLines(text: string)
    ensures Concat(Lines(text)) == text
    decreases |text|
  {
    if text != [] {
      var rest := Lines(text[1..]);
      ConcatLines(text[1..]);
      if text[0] == '\n' || rest == [] {
        assert Concat(Lines(text)) == [text[0]] + Concat(rest);
      } else {
        assert Concat(Lines(text)) == [text[0]] + rest[0] + Concat(rest[1..]);
        assert Concat(rest) == rest[0] + Concat(rest[1..]);
      }
      assert text == [text[0]] + text[1..];
    }
  }

  /** A line without an inner newline, ended by `\n`, is read as one line. */
  predicate IsLine(l: string) {
    |l| > 0 && l[|l| - 1] == '\n' && '\n' !in l[..|l| - 1]
  }

  lemma {:induction false} LinesPrefix(p: string, t: string)
    requires '\n' !in p
    ensures Lines(p + "\n" + t) == [p + "\n"] + Lines(t)
    decreases |p|
  {
    if p == [] {
      assert p + "\n" + t == "\n" + t;
      assert ("\n" + t)[1..] == t;
    } else {
      var s := p + "\n" + t;
      assert s[1..] == p[1..] + "\n" + t;
      LinesPrefix(p[1..], t);
      assert [s[0]] + (p[1..] + "\n") == p + "\n";
    }
  }

  /** Joining whole lines and reading the text again gives the lines back. */
  lemma {:induction false} LinesConcat(lines: seq<string>)
    requires forall k :: 0 <= k < |lines| ==> IsLine(lines[k])
    ensures Lines(Concat(lines)) == lines
  {
    if lines != [] {
      var l := lines[0];
      var p := l[..|l| - 1];
      assert l == p + "\n";
      LinesConcat(lines[1..]);
      LinesPrefix(p, Concat(lines[1..]));
      assert lines == [l] + lines[1..];
    }
  }

  // ----------------------------------------------------------------- reader

  /** The reader's variables between two lines: the finished `events` and the
      `event` being filled (`None` before the first header). */
  datatype Reader = Reader(events: seq<Option<Event>>, event: Option<Event>)

  /** `for j, col in enumerate(cols): event[j].append(int(col))`, from
      field `j` on. */
  function AddFields(e: Event, cols: seq<string>, j: nat): Result<Event>
    decreases |cols|
  {
    if cols == [] then Ok(e)
    else if j >= |e| then Raised(IndexError)
    else match ParseInt(cols[0])
      case None => Raised(ValueError)
      case Some(v) => AddFields(e[j := e[j] + [v]], cols[1..], j + 1)
  }

  /** The fields of a data line: `line.strip("\n").split(",")`. */
  function Fields(line: string): seq<string>
  {
    Split(StripChar(line, '\n'), ',')
  }

  /** One pass of the reading loop, on line number `i`. (A file never yields
      an empty line; `line[0]` of one would raise IndexError.) */
  function Step(st: Reader, i: nat, line: string): Result<Reader>
  {
    if line == [] then Raised(IndexError)
    else if line[0] == '#' then
      Ok(Reader(if i > 0 then st.events + [st.event] else st.events, Some(Blank())))
    else if st.event.None? then Raised(TypeError)
    else match AddFields(st.event.value, Fields(line), 0)
      case Raised(f) => Raised(f)
      case Ok(e) => Ok(Reader(st.events, Some(e)))
  }

  /** A loop that runs `step` over the lines from line number `i` on and
      stops at the first exception. */
  function Run(step: (Reader, nat, string) -> Result<Reader>, st: Reader, lines: seq<string>, i: nat): Result<Reader>
    decreases |lines|
  {
    if lines == [] then Ok(st)
    else match step(st, i, lines[0])
      case Raised(f) => Raised(f)
      case Ok(next) => Run(step, next, lines[1..], i + 1)
  }

  /** The reading loop from line number `i` on. */
  function ReadFrom(st: Reader, lines: seq<string>, i: nat): Result<Reader>
  {
    Run(Step, st, lines, i)
  }

  /** The events of a waveform text file, or the exception the reading loop
      raises. An empty file yields `[None]`. */
  function Read(text: string): Result<seq<Option<Event>>>
  {
    match ReadFrom(Reader([], None), Lines(text), 0)
    case Raised(f) => Raised(f)
    case Ok(st) => Ok(st.events + [st.event])
  }

  /** The reading loop of the tools, column appends and all. */
  method ReadEvents(text: string) returns (r: Result<seq<Option<Event>>>)
    ensures r == Read(text)
  {
    var lines := Lines(text);
    var events: seq<Option<Event>> := [];
    var event: Option<Event> := None;
    var i := 0;
    while i < |lines|
      invariant 0 <= i <= |lines|
      invariant ReadFrom(Reader([], None), lines, 0) == ReadFrom(Reader(events, event), lines[i..], i)
    {
      assert lines[i..][1..] == lines[i + 1..];
      var line := lines[i];
      if line[0] == '#' {
        if i > 0 {
          events := events + [event];
        }
        event := Some(Blank());
      } else {
        if event.None? {
          return Raised(TypeError);
        }
        var e := AppendRow(event.value, Fields(line));
        if e.Raised? {
          return Raised(e.fault);
        }
        event := Some(e.value);
      }
      i := i + 1;
    }
    return Ok(events + [event]);
  }

  /** The inner loop: `int` of each field appended to its column. */
  method AppendRow(event: Event, cols: seq<string>) returns (r: Result<Event>)
    ensures r == AddFields(event, cols, 0)
  {
    var e := event;
    var j := 0;
    while j < |cols|
      invariant 0 <= j <= |cols|
      invariant AddFields(event, cols, 0) == AddFields(e, cols[j..], j)
    {
      assert cols[j..][1..] == cols[j + 1..];
      if j >= |e| {
        return Raised(IndexError);
      }
      var v := ParseInt(cols[j]);
      if v.None? {
        return Raised(ValueError);
      }
      e := e[j := e[j] + [v.value]];
      j := j + 1;
    }
    assert cols[j..] == [];
    return Ok(e);
  }

  // ------------------------------------------------------------ event count

  /** The number of header lines. */
  function Headers(lines: seq<string>): nat
  {
    if lines == [] then 0 else (if lines[0] != [] && lines[0][0] == '#' then 1 else 0) + Headers(lines[1..])
  }

  /** Every event has the 18 columns of a blank one. */
  predicate Shaped(e: Option<Event>) {
    e.Some? && |e.value| == Columns
  }

  /** Appending fields never changes the number of columns. */
  lemma {:induction false} AddFieldsShape(e: Event, cols: seq<string>, j: nat)
    requires AddFields(e, cols, j).Ok?
    ensures |AddFields(e, cols, j).value| == |e|
    decreases |cols|
  {
    if cols != [] {
      var v := ParseInt(cols[0]).value;
      AddFieldsShape(e[j := e[j] + [v]], cols[1..], j + 1);
    }
  }

  /** Past the first line, each header pushes one event; so the events read
      from a text that starts with a header are one per header line. */
  lemma {:induction false} ReadFromCount(st: Reader, lines: seq<string>, i: nat)
    requires i > 0 && Shaped(st.event) && forall k :: 0 <= k < |st.events| ==> Shaped(st.events[k])
    requires ReadFrom(st, lines, i).Ok?
    ensures var out := ReadFrom(st, lines, i).value;
            && |out.events| == |st.events| + Headers(lines)
            && Shaped(out.event) && forall k :: 0 <= k < |out.events| ==> Shaped(out.events[k])
    decreases |lines|
  {
    if lines != [] {
      var next := Step(st, i, lines[0]).value;
      if lines[0][0] != '#' {
        AddFieldsShape(st.event.value, Fields(lines[0]), 0);
      }
      ReadFromCount(next, lines[1..], i + 1);
    }
  }

  /** A file whose reading succeeds either is empty, giving `[None]`, or
      opens with a header and gives one event of 18 columns per header. */
  lemma ReadCount(text: string)
    requires Read(text).Ok?
    ensures text == [] ==> Read(text).value == [None]
    ensures text != [] ==> && Lines(text)[0][0] == '#'
                           && |Read(text).value| == Headers(Lines(text))
                           && forall k :: 0 <= k < |Read(text).value| ==> Shaped(Read(text).value[k])
  {
    var lines := Lines(text);
    if text != [] {
      assert lines != [];
      assert Lines(text)[0][0] == '#';
      var st := Reader([], Some(Blank()));
      ReadFromCount(st, lines[1..], 1);
    }
  }

  // ----------------------------------------------------------------- layout

  /** One event as `np.savetxt(file, mat, fmt="%.0f", delimiter=",",
      header=head)` lays it out for integer samples: `# <head>`, then one
      line per sample index with the 18 column values. */
  datatype Block = Block(head: string, event: Event)

  /** A block the reader can take back: 18 columns of one common length and
      a one-line header. */
  predicate WellFormed(b: Block) {
    && |b.event| == Columns
    && (forall c :: 0 <= c < Columns ==> |b.event[c]| == |b.event[0]|)
    && '\n' !in b.head
  }

  /** The samples at index `r`, as text. */
  function Samples(e: Event, r: nat): (s: seq<string>)
    requires forall c :: 0 <= c < |e| ==> r < |e[c]|
    ensures |s| == |e|
  {
    seq(|e|, c requires 0 <= c < |e| => Decimal(e[c][r]))
  }

  /** The line of the samples at index `r`. */
  function RowLine(e: Event, r: nat): string
    requires forall c :: 0 <= c < |e| ==> r < |e[c]|
  {
    Join(Samples(e, r), ',') + "\n"
  }

  function RowLines(e: Event, r: nat, n: nat): seq<string>
    requires forall c :: 0 <= c < |e| ==> n <= |e[c]|
    decreases n - r
  {
    if r >= n then [] else [RowLine(e, r)] + RowLines(e, r + 1, n)
  }

  function BlockLines(b: Block): seq<string>
    requires WellFormed(b)
  {
    ["# " + b.head + "\n"] + RowLines(b.event, 0, |b.event[0]|)
  }

  /** The lines of each event of a run. */
  function Chunks(bs: seq<Block>): (cs: seq<seq<string>>)
    requires forall k :: 0 <= k < |bs| ==> WellFormed(bs[k])
    ensures |cs| == |bs| && forall k :: 0 <= k < |bs| ==> cs[k] == BlockLines(bs[k])
  {
    seq(|bs|, k requires 0 <= k < |bs| => BlockLines(bs[k]))
  }

  function Flatten(chunks: seq<seq<string>>): seq<string>
  {
    if chunks == [] then [] else chunks[0] + Flatten(chunks[1..])
  }

  /** The text of a run of events. */
  function Format(bs: seq<Block>): string
    requires forall k :: 0 <= k < |bs| ==> WellFormed(bs[k])
  {
    Concat(Flatten(Chunks(bs)))
  }

  /** The events of a run. */
  function Events(bs: seq<Block>): (es: seq<Event>)
    ensures |es| == |bs| && forall k :: 0 <= k < |bs| ==> es[k] == bs[k].event
  {
    seq(|bs|, k requires 0 <= k < |bs| => bs[k].event)
  }

  /** Events as the reader reports them, each one present. */
  function Wrap(es: seq<Event>): (r: seq<Option<Event>>)
    ensures |r| == |es| && forall k :: 0 <= k < |es| ==> r[k] == Some(es[k])
  {
    if es == [] then [] else [Some(es[0])] + Wrap(es[1..])
  }

  // ------------------------------------------------------------- round trip

  /** The first `r` samples of every column. */
  function Prefix(e: Event, r: nat): (p: Event)
    requires forall c :: 0 <= c < |e| ==> r <= |e[c]|
    ensures |p| == |e| && forall c :: 0 <= c < |e| ==> p[c] == e[c][..r]
  {
    seq(|e|, c requires 0 <= c < |e| => e[c][..r])
  }

  /** Row `r` half read: columns before `j` already hold sample `r`. */
  function Partial(e: Event, r: nat, j: nat): (p: Event)
    requires forall c :: 0 <= c < |e| ==> r < |e[c]|
    ensures |p| == |e| && forall c :: 0 <= c < |e| ==> p[c] == e[c][..if c < j then r + 1 else r]
  {
    seq(|e|, c requires 0 <= c < |e| => e[c][..if c < j then r + 1 else r])
  }

  lemma {:induction false} AddRowFields(e: Event, r: nat, j: nat)
    requires forall c :: 0 <= c < |e| ==> r < |e[c]|
    requires j <= |e|
    ensures AddFields(Partial(e, r, j), Samples(e, r)[j..], j) == Ok(Partial(e, r, |e|))
    decreases |e| - j
  {
    var s := Samples(e, r);
    if j < |e| {
      var p := Partial(e, r, j);
      ParseIntDecimal(e[j][r]);
      assert s[j..][0] == Decimal(e[j][r]);
      assert s[j..][1..] == s[j + 1..];
      TakeOne(e[j], r);
      assert p[j := p[j] + [e[j][r]]] == Partial(e, r, j + 1);
      AddRowFields(e, r, j + 1);
    } else {
      assert s[j..] == [];
    }
  }

  /** `strip("\n")` leaves a row of samples as it was. */
  lemma StripRow(row: string)
    requires row != [] && row[0] != '\n' && row[|row| - 1] != '\n'
    ensures StripChar(row + "\n", '\n') == row
  {
    var s := row + "\n";
    assert s[..|s| - 1] == row;
    assert TrimEnd(s, x => x == '\n') == TrimEnd(row, x => x == '\n');
    TrimUntouched(row, x => x == '\n');
  }

  /** The fields of a data line are the sample texts it was joined from. */
  lemma RowFields(e: Event, r: nat)
    requires |e| > 0 && forall c :: 0 <= c < |e| ==> r < |e[c]|
    ensures Fields(RowLine(e, r)) == Samples(e, r)
  {
    var s := Samples(e, r);
    var row := Join(s, ',');
    forall c | 0 <= c < |s|
      ensures ',' !in s[c] && s[c] != [] && s[c][0] != '\n' && s[c][|s[c]| - 1] != '\n'
    {
      DecimalChars(e[c][r]);
    }
    JoinFirst(s, ',');
    LastPiece(s, ',');
    StripRow(row);
    SplitJoin(s, ',');
  }

  /** The first character of a join is the first character of the first piece. */
  lemma JoinFirst(parts: seq<string>, sep: char)
    requires |parts| >= 1 && parts[0] != []
    ensures var j := Join(parts, sep); j != [] && j[0] == parts[0][0]
  {
    if |parts| > 1 {
      assert Join(parts, sep) == parts[0] + [sep] + Join(parts[1..], sep);
    }
  }

  /** A data line adds exactly the samples of its row. */
  lemma ReadRow(e: Event, r: nat)
    requires |e| == Columns && forall c :: 0 <= c < |e| ==> r < |e[c]|
    ensures AddFields(Prefix(e, r), Fields(RowLine(e, r)), 0) == Ok(Prefix(e, r + 1))
  {
    var s := Samples(e, r);
    RowFields(e, r);
    assert Partial(e, r, 0) == Prefix(e, r);
    assert Partial(e, r, |e|) == Prefix(e, r + 1);
    assert s[0..] == s;
    AddRowFields(e, r, 0);
  }

  /** The last character of a join is the last character of the last piece. */
  lemma {:induction false} LastPiece(parts: seq<string>, sep: char)
    requires |parts| >= 1 && parts[|parts| - 1] != []
    ensures var j := Join(parts, sep); j != [] && j[|j| - 1] == parts[|parts| - 1][|parts[|parts| - 1]| - 1]
  {
    if |parts| > 1 {
      assert parts[1..][|parts| - 2] == parts[|parts| - 1];
      LastPiece(parts[1..], sep);
    }
  }

  /** One data line of the layout is read as one more sample per column. */
  lemma RowStep(evs: seq<Option<Event>>, e: Event, r: nat, i: nat)
    requires |e| == Columns && forall c :: 0 <= c < |e| ==> r < |e[c]|
    ensures Step(Reader(evs, Some(Prefix(e, r))), i, RowLine(e, r)) == Ok(Reader(evs, Some(Prefix(e, r + 1))))
  {
    var s := Samples(e, r);
    var line := RowLine(e, r);
    assert line != [] && line[0] != '#' by {
      DecimalChars(e[0][r]);
      JoinFirst(s, ',');
      assert line[0] == s[0][0];
    }
    ReadRow(e, r);
  }

  lemma {:induction false} ReadRows(evs: seq<Option<Event>>, e: Event, r: nat, i: nat)
    requires |e| == Columns && forall c :: 0 <= c < Columns ==> |e[c]| == |e[0]|
    requires r <= |e[0]|
    ensures ReadFrom(Reader(evs, Some(Prefix(e, r))), RowLines(e, r, |e[0]|), i)
            == Ok(Reader(evs, Some(e)))
    decreases |e[0]| - r
  {
    var n := |e[0]|;
    if r < n {
      RowStep(evs, e, r, i);
      ReadRows(evs, e, r + 1, i + 1);
      assert RowLines(e, r, n) == [RowLine(e, r)] + RowLines(e, r + 1, n);
    } else {
      assert forall c :: 0 <= c < |e| ==> e[c][..r] == e[c];
      assert Prefix(e, r) == e;
    }
  }

  lemma ReadBlock(st: Reader, b: Block, i: nat)
    requires WellFormed(b)
    ensures ReadFrom(st, BlockLines(b), i)
            == Ok(Reader(if i > 0 then st.events + [st.event] else st.events, Some(b.event)))
  {
    var evs := if i > 0 then st.events + [st.event] else st.events;
    assert Prefix(b.event, 0) == Blank();
    ReadRows(evs, b.event, 0, i + 1);
    assert BlockLines(b)[1..] == RowLines(b.event, 0, |b.event[0]|);
  }

  /** Running on from a state the loop reached, or passing its exception on. */
  function Continue(step: (Reader, nat, string) -> Result<Reader>, r: Result<Reader>, lines: seq<string>, i: nat): Result<Reader>
  {
    match r
    case Raised(f) => Raised(f)
    case Ok(mid) => Run(step, mid, lines, i)
  }

  /** Running over two runs of lines is running over the first and then the
      second. */
  lemma {:induction false} RunAppend(step: (Reader, nat, string) -> Result<Reader>, st: Reader,
                                     a: seq<string>, b: seq<string>, i: nat)
    ensures Run(step, st, a + b, i) == Continue(step, Run(step, st, a, i), b, i + |a|)
    decreases |a|
  {
    if a != [] {
      assert (a + b)[0] == a[0];
      assert (a + b)[1..] == a[1..] + b;
      match step(st, i, a[0])
      case Raised(f) =>
      case Ok(next) => RunAppend(step, next, a[1..], b, i + 1);
    } else {
      assert a + b == b;
    }
  }

  /** A loop that, from any line number past 0, reads each chunk by pushing
      the event that was open and opening the chunk's event, ends with the
      event that was open followed by the events of chunks `n` onwards. */
  lemma {:induction false} RunChunks(step: (Reader, nat, string) -> Result<Reader>, st: Reader,
                                     chunks: seq<seq<string>>, es: seq<Event>, n: nat, i: nat)
    requires |chunks| == |es| && n <= |chunks| && i > 0
    requires forall k, s: Reader, j: nat {:trigger Run(step, s, chunks[k], j)} ::
               0 <= k < |chunks| && j > 0 ==>
               Run(step, s, chunks[k], j) == Ok(Reader(s.events + [s.event], Some(es[k])))
    ensures Run(step, st, Flatten(chunks[n..]), i).Ok?
    ensures var out := Run(step, st, Flatten(chunks[n..]), i).value;
            out.events + [out.event] == st.events + [st.event] + Wrap(es[n..])
    decreases |chunks| - n
  {
    if n == |chunks| {
      assert chunks[n..] == [] && es[n..] == [];
      assert st.events + [st.event] + Wrap(es[n..]) == st.events + [st.event];
    } else {
      var c := chunks[n];
      var pre := st.events + [st.event];
      var mid := Reader(pre, Some(es[n]));
      var rest := Flatten(chunks[n + 1..]);
      assert Run(step, st, Flatten(chunks[n..]), i) == Run(step, mid, rest, i + |c|) by {
        assert Run(step, st, chunks[n], i) == Ok(mid);
        assert chunks[n..][1..] == chunks[n + 1..];
        assert Flatten(chunks[n..]) == c + rest;
        RunAppend(step, st, c, rest, i);
      }
      assert pre + [Some(es[n])] + Wrap(es[n + 1..]) == pre + Wrap(es[n..]) by {
        assert es[n..][1..] == es[n + 1..];
        assert Wrap(es[n..]) == [Some(es[n])] + Wrap(es[n + 1..]);
      }
      RunChunks(step, mid, chunks, es, n + 1, i + |c|);
    }
  }

  /** Reading the text of a run of well-formed events gives exactly those
      events back, in order. */
  lemma ReadFormat(bs: seq<Block>)
    requires bs != [] && forall k :: 0 <= k < |bs| ==> WellFormed(bs[k])
    ensures Read(Format(bs)) == Ok(Wrap(Events(bs)))
  {
    var chunks := Chunks(bs);
    var start := Reader([], None);
    var mid := Reader([], Some(Events(bs)[0]));
    var rest := Flatten(chunks[1..]);
    FormatSplit(bs);
    FirstChunkRead(bs, start, 0);
    ReadAfter(start, Lines(Format(bs)), chunks[0], rest, mid, 0);
    ReadOtherBlocks(bs);
    ReadEnds(Format(bs), Run(Step, mid, rest, |chunks[0]|).value);
  }

  /** A reading loop that ends in a state hands back the events it pushed
      and the one still open. */
  lemma ReadEnds(text: string, st: Reader)
    requires ReadFrom(Reader([], None), Lines(text), 0) == Ok(st)
    ensures Read(text) == Ok(st.events + [st.event])
  {
  }

  /** Once the first lines have been read into `mid`, reading goes on from
      `mid` with the lines after them. */
  lemma ReadAfter(st: Reader, lines: seq<string>, a: seq<string>, rest: seq<string>, mid: Reader, i: nat)
    requires lines == a + rest && Run(Step, st, a, i) == Ok(mid)
    ensures ReadFrom(st, lines, i) == Run(Step, mid, rest, i + |a|)
  {
    RunThen(Step, st, a, rest, i, mid);
  }

  /** The lines of the layout: the first event's, then the others'. */
  lemma FormatSplit(bs: seq<Block>)
    requires bs != [] && forall k :: 0 <= k < |bs| ==> WellFormed(bs[k])
    ensures Lines(Format(bs)) == Chunks(bs)[0] + Flatten(Chunks(bs)[1..])
  {
    FormatLines(bs);
  }

  /** The first event's lines, read from line 0, open that event. (The
      start state and the line number are parameters, so that the solver
      does not unfold the reading loop on literals.) */
  lemma FirstChunkRead(bs: seq<Block>, st: Reader, i: nat)
    requires bs != [] && forall k :: 0 <= k < |bs| ==> WellFormed(bs[k])
    requires st.events == [] && i == 0
    ensures Run(Step, st, Chunks(bs)[0], i) == Ok(Reader([], Some(Events(bs)[0])))
  {
    ReadBlock(st, bs[0], i);
  }

  /** The lines of the other events push the first one and each of the
      others in turn, leaving the last one open. */
  lemma ReadOtherBlocks(bs: seq<Block>)
    requires bs != [] && forall k :: 0 <= k < |bs| ==> WellFormed(bs[k])
    ensures var out := Run(Step, Reader([], Some(Events(bs)[0])), Flatten(Chunks(bs)[1..]), |Chunks(bs)[0]|);
            out.Ok? && out.value.events + [out.value.event] == Wrap(Events(bs))
  {
    var es := Events(bs);
    ChunksRead(bs);
    RunChunks(Step, Reader([], Some(es[0])), Chunks(bs), es, 1, |Chunks(bs)[0]|);
    assert Wrap(es) == [] + [Some(es[0])] + Wrap(es[1..]);
  }


  /** The layout is read back line for line. */
  lemma FormatLines(bs: seq<Block>)
    requires forall k :: 0 <= k < |bs| ==> WellFormed(bs[k])
    ensures Lines(Format(bs)) == Flatten(Chunks(bs))
  {
    forall k | 0 <= k < |bs| {
      BlockLinesAreLines(bs[k]);
    }
    ChunksAreLines(Chunks(bs));
    LinesConcat(Flatten(Chunks(bs)));
  }

  /** Once a run of lines reaches a state, the lines after it run from there. */
  lemma RunThen(step: (Reader, nat, string) -> Result<Reader>, st: Reader,
                a: seq<string>, b: seq<string>, i: nat, mid: Reader)
    requires Run(step, st, a, i) == Ok(mid)
    ensures Run(step, st, a + b, i) == Run(step, mid, b, i + |a|)
  {
    RunAppend(step, st, a, b, i);
  }

  /** Each event's lines, read from any line number past 0. */
  lemma ChunksRead(bs: seq<Block>)
    requires forall k :: 0 <= k < |bs| ==> WellFormed(bs[k])
    ensures forall k, s: Reader, j: nat {:trigger Run(Step, s, Chunks(bs)[k], j)} ::
              0 <= k < |bs| && j > 0 ==>
              Run(Step, s, Chunks(bs)[k], j) == Ok(Reader(s.events + [s.event], Some(Events(bs)[k])))
  {
    forall k, s: Reader, j: nat | 0 <= k < |bs| && j > 0
      ensures Run(Step, s, Chunks(bs)[k], j) == Ok(Reader(s.events + [s.event], Some(Events(bs)[k])))
    {
      ReadBlock(s, bs[k], j);
    }
  }

  /** Every line of the layout is a whole line. */
  lemma {:induction false} ChunksAreLines(chunks: seq<seq<string>>)
    requires forall k, n :: 0 <= k < |chunks| && 0 <= n < |chunks[k]| ==> IsLine(chunks[k][n])
    ensures forall n :: 0 <= n < |Flatten(chunks)| ==> IsLine(Flatten(chunks)[n])
  {
    if chunks != [] {
      ChunksAreLines(chunks[1..]);
      var f := Flatten(chunks);
      assert f == chunks[0] + Flatten(chunks[1..]);
    }
  }

  lemma BlockLinesAreLines(b: Block)
    requires WellFormed(b)
    ensures forall n :: 0 <= n < |BlockLines(b)| ==> IsLine(BlockLines(b)[n])
  {
    RowLinesAreLines(b.event, 0);
    var h := "# " + b.head + "\n";
    assert h[..|h| - 1] == "# " + b.head;
  }

  lemma {:induction false} RowLinesAreLines(e: Event, r: nat)
    requires |e| == Columns && forall c :: 0 <= c < Columns ==> |e[c]| == |e[0]|
    requires r <= |e[0]|
    ensures forall k :: 0 <= k < |RowLines(e, r, |e[0]|)| ==> IsLine(RowLines(e, r, |e[0]|)[k])
    decreases |e[0]| - r
  {
    if r < |e[0]| {
      RowLinesAreLines(e, r + 1);
      RowLineIsLine(e, r);
      var ls := RowLines(e, r, |e[0]|);
      assert ls == [RowLine(e, r)] + RowLines(e, r + 1, |e[0]|);
    }
  }

  /** The line of one sample row holds no line break before its end. */
  lemma RowLineIsLine(e: Event, r: nat)
    requires forall c :: 0 <= c < |e| ==> r < |e[c]|
    ensures IsLine(RowLine(e, r))
  {
    var s := Samples(e, r);
    forall c | 0 <= c < |s|
      ensures '\n' !in s[c]
    {
      DecimalChars(e[c][r]);
    }
    NoNewlineInJoin(s);
    var l := RowLine(e, r);
    assert l[..|l| - 1] == Join(s, ',');
  }

  lemma {:induction false} NoNewlineInJoin(parts: seq<string>)
    requires forall k :: 0 <= k < |parts| ==> '\n' !in parts[k]
    ensures '\n' !in Join(parts, ',')
  {
    if |parts| > 1 {
      NoNewlineInJoin(parts[1..]);
    }
  }
}
