/** `tools/meanmax.py`: read a waveform text file, take its second event and,
    column by column, report the samples that stray from the column's
    reference band. The band (`np.mean` of the reference window and twice its
    `np.std`) is floating point and is given as a parameter. */
module MeanMax {
  import opened Base
  import opened WaveText
  import opened Buffers

  /** Samples at the end of each column kept out of its reference window. */
  const Tail: nat := 50

  /** The mean of a reference window and the distance from it that counts as
      an outlier. */
  datatype Band = Band(mean: real, threshold: real)

  /** One printed line `"{i} of {j}"`: sample `i` of column `j`. */
  datatype Hit = Hit(sample: nat, column: nat)

  function Abs(x: real): real {
    if x < 0.0 then -x else x
  }

  /** `abs(sample - mean) >= thresh` */
  predicate Deviates(sample: int, band: Band) {
    Abs(sample as real - band.mean) >= band.threshold
  }

  /** The band of a column: computed on `channel[:-50]` only. */
  function Reference(channel: Column, stats: Column -> Band): Band {
    stats(ButLast(channel, Tail))
  }

  /** The lines printed for one column, in sample order. */
  function ColumnHits(channel: Column, j: nat, band: Band): (r: seq<Hit>)
    ensures forall h :: h in r ==> h.column == j && h.sample < |channel| && Deviates(channel[h.sample], band)
    ensures forall a, c :: 0 <= a < c < |r| ==> r[a].sample < r[c].sample
    decreases |channel|
  {
    if channel == [] then []
    else
      var n := |channel| - 1;
      ColumnHits(channel[..n], j, band) + (if Deviates(channel[n], band) then [Hit(n, j)] else [])
  }

  /** The lines printed for one event, column after column. */
  function EventHits(event: Event, stats: Column -> Band): (r: seq<Hit>)
    ensures forall h :: h in r ==>
      h.column < |event| && h.sample < |event[h.column]| &&
      Deviates(event[h.column][h.sample], Reference(event[h.column], stats))
    ensures forall a, c :: 0 <= a < c < |r| ==> r[a].column <= r[c].column
    decreases |event|
  {
    if event == [] then []
    else
      var n := |event| - 1;
      EventHits(event[..n], stats) + ColumnHits(event[n], n, Reference(event[n], stats))
  }

  /** The lines printed for a run of events; a missing event makes
      `enumerate(None)` raise TypeError. */
  function Scanned(events: seq<Option<Event>>, stats: Column -> Band): Result<seq<Hit>>
    decreases |events|
  {
    if events == [] then Ok([])
    else
      var n := |events| - 1;
      match Scanned(events[..n], stats)
      case Raised(f) => Raised(f)
      case Ok(out) =>
        match events[n]
        case None => Raised(TypeError)
        case Some(e) => Ok(out + EventHits(e, stats))
  }

  /** `init`: the events of the file, then the scan of `events[1:2]`. */
  function Outliers(text: string, stats: Column -> Band): Result<seq<Hit>> {
    match Read(text)
    case Raised(f) => Raised(f)
    case Ok(events) => Scanned(Slice(events, 1, 2), stats)
  }

  /** `for i, sample in enumerate(channel)`: the lines printed for one
      column. */
  method ScanColumn(channel: Column, j: nat, band: Band) returns (hits: seq<Hit>)
    ensures hits == ColumnHits(channel, j, band)
  {
    hits := [];
    var i := 0;
    while i < |channel|
      invariant 0 <= i <= |channel|
      invariant hits == ColumnHits(channel[..i], j, band)
    {
      assert channel[..i + 1][..i] == channel[..i];
      if Deviates(channel[i], band) {
        hits := hits + [Hit(i, j)];
      }
      i := i + 1;
    }
    assert channel[..i] == channel;
  }

  /** `for j, channel in enumerate(event)`: the lines printed for one event. */
  method ScanEvent(event: Event, stats: Column -> Band) returns (hits: seq<Hit>)
    ensures hits == EventHits(event, stats)
  {
    hits := [];
    var j := 0;
    while j < |event|
      invariant 0 <= j <= |event|
      invariant hits == EventHits(event[..j], stats)
    {
      assert event[..j + 1][..j] == event[..j];
      var more := ScanColumn(event[j], j, Reference(event[j], stats));
      hits := hits + more;
      j := j + 1;
    }
    assert event[..j] == event;
  }

  /** Once the scan has raised, the rest of the events are not looked at. */
  lemma {:induction false} ScannedStays(events: seq<Option<Event>>, stats: Column -> Band, m: nat, f: Fault)
    requires m <= |events| && Scanned(events[..m], stats) == Raised(f)
    ensures Scanned(events, stats) == Raised(f)
    decreases |events|
  {
    if m == |events| {
      assert events[..m] == events;
    } else {
      var n := |events| - 1;
      assert events[..n][..m] == events[..m];
      ScannedStays(events[..n], stats, m, f);
    }
  }

  /** `for event in ...`: the lines printed for a run of events. */
  method Scan(events: seq<Option<Event>>, stats: Column -> Band) returns (r: Result<seq<Hit>>)
    ensures r == Scanned(events, stats)
  {
    var out: seq<Hit> := [];
    var k := 0;
    while k < |events|
      invariant 0 <= k <= |events|
      invariant Scanned(events[..k], stats) == Ok(out)
    {
      assert events[..k + 1][..k] == events[..k];
      if events[k].None? {
        ScannedStays(events, stats, k + 1, TypeError);
        return Raised(TypeError);
      }
      var more := ScanEvent(events[k].value, stats);
      out := out + more;
      k := k + 1;
    }
    assert events[..k] == events;
    return Ok(out);
  }

  /** `init` as the script runs it. */
  method Run(text: string, stats: Column -> Band) returns (r: Result<seq<Hit>>)
    ensures r == Outliers(text, stats)
  {
    var events := ReadEvents(text);
    match events
    case Raised(f) => return Raised(f);
    case Ok(es) => r := Scan(Slice(es, 1, 2), stats);
  }

  /** Every sample that strays from its band is reported. */
  lemma {:induction false} ColumnHitsComplete(channel: Column, j: nat, band: Band, k: nat)
    requires k < |channel| && Deviates(channel[k], band)
    ensures Hit(k, j) in ColumnHits(channel, j, band)
    decreases |channel|
  {
    var n := |channel| - 1;
    if k < n {
      assert channel[..n][k] == channel[k];
      ColumnHitsComplete(channel[..n], j, band, k);
    }
  }

  /** Every sample of every column that strays from its column's band is
      reported. */
  lemma {:induction false} EventHitsComplete(event: Event, stats: Column -> Band, j: nat, k: nat)
    requires j < |event| && k < |event[j]|
    requires Deviates(event[j][k], Reference(event[j], stats))
    ensures Hit(k, j) in EventHits(event, stats)
    decreases |event|
  {
    var n := |event| - 1;
    var band := Reference(event[n], stats);
    assert EventHits(event, stats) == EventHits(event[..n], stats) + ColumnHits(event[n], n, band);
    if j < n {
      assert event[..n][j] == event[j];
      EventHitsComplete(event[..n], stats, j, k);
    } else {
      ColumnHitsComplete(event[n], n, band, k);
    }
  }

  /** A reported sample strays from its band, and every straying sample is
      reported. */
  lemma EventHitsExact(event: Event, stats: Column -> Band, j: nat, k: nat)
    ensures Hit(k, j) in EventHits(event, stats) <==>
      j < |event| && k < |event[j]| && Deviates(event[j][k], Reference(event[j], stats))
  {
    if j < |event| && k < |event[j]| && Deviates(event[j][k], Reference(event[j], stats)) {
      EventHitsComplete(event, stats, j, k);
    }
  }

  /** Only the second event of the file is scanned: a file of fewer than two
      events prints nothing. */
  lemma SecondOnly(events: seq<Option<Event>>, stats: Column -> Band)
    ensures |events| < 2 ==> Scanned(Slice(events, 1, 2), stats) == Ok([])
    ensures |events| >= 2 && events[1].Some? ==>
      Scanned(Slice(events, 1, 2), stats) == Ok(EventHits(events[1].value, stats))
  {
    var s := Slice(events, 1, 2);
    if |events| < 2 {
      assert s == [];
    } else if events[1].Some? {
      assert s == [events[1]];
      assert s[..0] == [];
      assert [] + EventHits(events[1].value, stats) == EventHits(events[1].value, stats);
    }
  }

  /** The band of a column does not depend on its last fifty samples. */
  lemma ReferenceIgnoresTail(a: Column, b: Column, stats: Column -> Band)
    requires |a| == |b| > Tail && a[..|a| - Tail] == b[..|b| - Tail]
    ensures Reference(a, stats) == Reference(b, stats)
  {
  }
}
