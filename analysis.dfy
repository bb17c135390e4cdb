/** The offline analysers of one scan point (`tools/analyzer.py` and its
    copy `tools/mean.py`). Both read the waveform text file of the point,
    split every event into nine channels, two triggers and two extra
    columns, and line the events up in time: each event is shifted so that
    its first trigger crosses below 1700 counts at the earliest crossing of
    all events. The laser position is read from the file name. */
module Analysis {
  import opened Base
  import opened Text
  import opened WaveText
  import opened Buffers

  /** `CORRECTION_THRESH`: the trigger level the time correction aligns on. */
  const Threshold: int := 1700

  /** The first crossing an event can be aligned to when none comes earlier. */
  const Latest: int := 1024

  // ------------------------------------------------------------------ split

  /** The columns of the events of a file, kept in three parallel lists. */
  datatype Scan = Scan(channels: seq<seq<Column>>, triggers: seq<seq<Column>>, extra: seq<seq<Column>>)

  /** `event[0:8] + event[9:10]`: the nine channels the analysis keeps. */
  function Channels(e: Event): seq<Column> {
    Slice(e, 0, 8) + Slice(e, 9, 10)
  }

  /** `event[8:9] + event[17:18]`: the two fast triggers. */
  function Triggers(e: Event): seq<Column> {
    Slice(e, 8, 9) + Slice(e, 17, 18)
  }

  /** `event[10:12]`: the two extra columns. */
  function Extra(e: Event): seq<Column> {
    Slice(e, 10, 12)
  }

  /** On an event of 18 columns, the channels are columns 0 to 7 and 9, the
      triggers columns 8 and 17, the extra columns 10 and 11; columns 12 to
      16 go nowhere. */
  lemma SplitColumns(e: Event)
    requires |e| == Columns
    ensures Channels(e) == e[..8] + [e[9]]
    ensures Triggers(e) == [e[8], e[17]]
    ensures Extra(e) == [e[10], e[11]]
  {
    assert Slice(e, 8, 9) == [e[8]] && Slice(e, 17, 18) == [e[17]];
    assert Slice(e, 10, 12) == [e[10], e[11]];
  }

  /** The split of every event of a file; an event that is None (the file
      was empty) raises TypeError. */
  function Separated(events: seq<Option<Event>>): (r: Result<Scan>)
    ensures r.Ok? <==> forall n :: 0 <= n < |events| ==> events[n].Some?
    ensures r.Raised? ==> r.fault == TypeError
    ensures r.Ok? ==> && |r.value.channels| == |r.value.triggers| == |r.value.extra| == |events|
                      && forall n :: 0 <= n < |events| ==>
                           && r.value.channels[n] == Channels(events[n].value)
                           && r.value.triggers[n] == Triggers(events[n].value)
                           && r.value.extra[n] == Extra(events[n].value)
  {
    if exists n :: 0 <= n < |events| && events[n].None? then Raised(TypeError)
    else Ok(Scan(seq(|events|, n requires 0 <= n < |events| => Channels(events[n].value)),
                 seq(|events|, n requires 0 <= n < |events| => Triggers(events[n].value)),
                 seq(|events|, n requires 0 <= n < |events| => Extra(events[n].value))))
  }

  /** The split loop of `parse`. */
  method Separate(events: seq<Option<Event>>) returns (r: Result<Scan>)
    ensures r == Separated(events)
  {
    var channels: seq<seq<Column>> := [];
    var triggers: seq<seq<Column>> := [];
    var extra: seq<seq<Column>> := [];
    for n := 0 to |events|
      invariant |channels| == |triggers| == |extra| == n
      invariant forall m :: 0 <= m < n ==> && events[m].Some?
                                           && channels[m] == Channels(events[m].value)
                                           && triggers[m] == Triggers(events[m].value)
                                           && extra[m] == Extra(events[m].value)
    {
      if events[n].None? {
        return Raised(TypeError);
      }
      var e := events[n].value;
      channels := channels + [Channels(e)];
      triggers := triggers + [Triggers(e)];
      extra := extra + [Extra(e)];
    }
    assert Separated(events).Ok?;
    assert Separated(events).value.channels == channels;
    assert Separated(events).value.triggers == triggers;
    assert Separated(events).value.extra == extra;
    return Ok(Scan(channels, triggers, extra));
  }

  /** `parse(name)`: read the events of the file, then split them. */
  method Parse(text: string) returns (r: Result<Scan>)
    ensures r == match Read(text) case Raised(f) => Raised(f) case Ok(events) => Separated(events)
  {
    var events := ReadEvents(text);
    if events.Raised? {
      return Raised(events.fault);
    }
    r := Separate(events.value);
  }

  // --------------------------------------------------------------- crossing

  /** `getFirstIndexAt(data, bound)`: the index of the first sample below
      `bound`; `next` raises StopIteration when there is none. */
  function FirstBelow(data: seq<int>, bound: int): (r: Result<nat>)
    ensures r.Ok? ==> && r.value < |data| && data[r.value] < bound
                      && forall k :: 0 <= k < r.value ==> data[k] >= bound
    ensures r.Raised? ==> r.fault == StopIteration && forall k :: 0 <= k < |data| ==> data[k] >= bound
  {
    if data == [] then Raised(StopIteration)
    else if data[0] < bound then Ok(0)
    else match FirstBelow(data[1..], bound)
      case Raised(f) => Raised(f)
      case Ok(k) => Ok(k + 1)
  }

  /** The first crossing of an event's first trigger column; `event[0]` of
      an event without triggers raises IndexError. */
  function Crossing(triggers: seq<Column>): Result<nat> {
    if triggers == [] then Raised(IndexError) else FirstBelow(triggers[0], Threshold)
  }

  /** `last = min(last, first crossing)` over the events from the first. */
  function MinFrom(events: seq<seq<Column>>, last: int): Result<int>
  {
    if events == [] then Ok(last)
    else match Crossing(events[0])
      case Raised(f) => Raised(f)
      case Ok(c) => MinFrom(events[1..], if c < last then c else last)
  }

  /** `self.minimum`: the earliest crossing of all events, and never later
      than sample 1024. */
  function MinCrossing(events: seq<seq<Column>>): Result<int> {
    MinFrom(events, Latest)
  }

  /** The minimum is no later than any event's crossing nor than the
      starting bound, and it is the starting bound or one of the
      crossings. */
  lemma {:induction false} MinFromBounds(events: seq<seq<Column>>, last: int, k: nat)
    requires MinFrom(events, last).Ok?
    ensures MinFrom(events, last).value <= last
    ensures k < |events| ==> Crossing(events[k]).Ok? && MinFrom(events, last).value <= Crossing(events[k]).value
    ensures MinFrom(events, last).value == last
            || exists j :: 0 <= j < |events| && Crossing(events[j]) == Ok(MinFrom(events, last).value)
  {
    if events != [] {
      var c := Crossing(events[0]).value;
      var next := if c < last then c else last;
      MinFromBounds(events[1..], next, if k > 0 then k - 1 else 0);
      var m := MinFrom(events, last).value;
      if m != next {
        var j :| 0 <= j < |events[1..]| && Crossing(events[1..][j]) == Ok(m);
        assert Crossing(events[j + 1]) == Ok(m);
      } else if next == c {
        assert Crossing(events[0]) == Ok(m);
      }
    }
  }

  /** An event's delay: its own crossing minus the minimum. */
  function Delay(triggers: seq<seq<Column>>, target: int): Result<int> {
    match MinCrossing(triggers)
    case Raised(f) => Raised(f)
    case Ok(m) =>
      match PyIndex(|triggers|, target)
      case None => Raised(IndexError)
      case Some(t) =>
        match Crossing(triggers[t])
        case Raised(f) => Raised(f)
        case Ok(c) => Ok(c - m)
  }

  /** No event is ever shifted backwards: every delay is at least zero, and
      the event with the earliest crossing is not shifted at all. */
  lemma DelayNonNegative(triggers: seq<seq<Column>>, target: nat)
    requires Delay(triggers, target).Ok?
    ensures Delay(triggers, target).value >= 0
    ensures (&& target < |triggers| && MinCrossing(triggers).Ok? && Crossing(triggers[target]).Ok?
             && MinCrossing(triggers).value == Crossing(triggers[target]).value)
            ==> Delay(triggers, target).value == 0
  {
    MinFromBounds(triggers, Latest, target);
  }

  /** The part of `Analyzer` the time correction uses: the trigger columns
      of every event and the cached minimum. */
  class Analyzer {
    var triggers: seq<seq<Column>>
    /** `self.minimum` once `_getIndexDelay` has set it. */
    var minimum: Option<int>

    /** The cache, once filled, holds the minimum of the current triggers. */
    ghost predicate Valid()
      reads this
    {
      minimum.Some? ==> MinCrossing(triggers) == Ok(minimum.value)
    }

    constructor (triggers: seq<seq<Column>>)
      ensures Valid() && this.triggers == triggers && minimum == None
    {
      this.triggers := triggers;
      minimum := None;
    }

    /** The loop that computes the minimum: start from 1024, take the
        smaller of it and each event's crossing. */
    method ComputeMinimum() returns (r: Result<int>)
      ensures r == MinCrossing(triggers)
    {
      var last := Latest;
      for n := 0 to |triggers|
        invariant MinCrossing(triggers) == MinFrom(triggers[n..], last)
      {
        assert triggers[n..][1..] == triggers[n + 1..];
        var event := triggers[n];
        if event == [] {
          return Raised(IndexError);
        }
        var c := FirstBelow(event[0], Threshold);
        if c.Raised? {
          return Raised(c.fault);
        }
        last := if c.value < last then c.value else last;
      }
      assert triggers[|triggers|..] == [];
      return Ok(last);
    }

    /** `_getIndexDelay(target)`: fill the cache on first use, then return
        the target's crossing minus the minimum. */
    method IndexDelay(target: int) returns (r: Result<int>)
      requires Valid()
      modifies this
      ensures Valid() && triggers == old(triggers)
      ensures old(minimum).Some? ==> minimum == old(minimum)
      ensures old(minimum).None? && MinCrossing(triggers).Ok? ==> minimum == Some(MinCrossing(triggers).value)
      ensures old(minimum).None? && MinCrossing(triggers).Raised? ==> minimum == None
      ensures r == Delay(triggers, target)
    {
      if minimum.None? {
        var m := ComputeMinimum();
        if m.Raised? {
          return Raised(m.fault);
        }
        minimum := Some(m.value);
      }
      var t := PyIndex(|triggers|, target);
      if t.None? {
        return Raised(IndexError);
      }
      var event := triggers[t.value];
      if event == [] {
        return Raised(IndexError);
      }
      var c := FirstBelow(event[0], Threshold);
      if c.Raised? {
        return Raised(c.fault);
      }
      return Ok(c.value - minimum.value);
    }

    /** `_applyTimeCorrection(data)`: every column of event `i` is shifted
        left by the delay of event `i` and padded with `delay` copies of the
        mean of its window (`channel[:-50]`), which `mean` stands for. */
    method ApplyTimeCorrection<T>(data: seq<seq<seq<T>>>, mean: seq<T> -> T) returns (r: Result<seq<seq<seq<T>>>>)
      requires Valid()
      modifies this
      ensures Valid() && triggers == old(triggers)
      ensures r == Corrected(triggers, data, mean)
    {
      var out := data;
      assert After([], Corrected(triggers, data, mean)) == Corrected(triggers, data, mean) by {
        if Corrected(triggers, data, mean).Ok? {
          assert [] + Corrected(triggers, data, mean).value == Corrected(triggers, data, mean).value;
        }
      }
      for i := 0 to |data|
        invariant Valid() && triggers == old(triggers) && |out| == |data|
        invariant Corrected(triggers, data, mean) == After(out[..i], CorrectedFrom(triggers, data, i, mean))
      {
        var delta := IndexDelay(i);
        if delta.Raised? {
          return Raised(delta.fault);
        }
        DelayNonNegative(triggers, i);
        var event := ShiftColumns(data[i], delta.value, mean);
        ghost var rest := CorrectedFrom(triggers, data, i + 1, mean);
        Appended(out[..i], [event], if rest.Ok? then rest.value else []);
        out := out[i := event];
        assert out[..i + 1] == out[..i] + [event];
      }
      assert out[..|data|] == out && out + [] == out;
      return Ok(out);
    }
  }

  /** The inner loop of `_applyTimeCorrection`: each column of one event is
      shifted by the event's delay and padded with the mean of its window. */
  method ShiftColumns<T>(event: seq<seq<T>>, delta: nat, mean: seq<T> -> T) returns (shifted: seq<seq<T>>)
    ensures shifted == ShiftEvent(event, delta, mean)
  {
    shifted := event;
    for j := 0 to |event|
      invariant |shifted| == |event|
      invariant forall k :: 0 <= k < j ==> shifted[k] == Shift(event[k], delta, mean(ButLast(event[k], 50)))
      invariant forall k :: j <= k < |event| ==> shifted[k] == event[k]
    {
      var channel := shifted[j];
      var fill := mean(ButLast(channel, 50));
      shifted := shifted[j := Shift(channel, delta, fill)];
    }
  }

  // -------------------------------------------------------------- correction

  /** `channel[delta:] + [fill] * delta` */
  function Shift<T>(channel: seq<T>, delta: nat, fill: T): seq<T> {
    (if delta <= |channel| then channel[delta..] else []) + seq(delta, _ => fill)
  }

  /** A column at least `delta` long keeps its length: sample `k` takes the
      value `delta` samples later, and the last `delta` samples are the
      fill value. */
  lemma ShiftKeepsLength<T>(channel: seq<T>, delta: nat, fill: T, k: nat)
    requires delta <= |channel|
    ensures |Shift(channel, delta, fill)| == |channel|
    ensures k < |channel| - delta ==> Shift(channel, delta, fill)[k] == channel[k + delta]
    ensures |channel| - delta <= k < |channel| ==> Shift(channel, delta, fill)[k] == fill
  {
  }

  /** Every column of an event shifted by one delay. */
  function ShiftEvent<T>(event: seq<seq<T>>, delta: nat, mean: seq<T> -> T): (r: seq<seq<T>>)
    ensures |r| == |event|
  {
    seq(|event|, k requires 0 <= k < |event| => Shift(event[k], delta, mean(ButLast(event[k], 50))))
  }

  /** The corrected events from event `i` on, or the exception the first
      delay raises. */
  function CorrectedFrom<T>(triggers: seq<seq<Column>>, data: seq<seq<seq<T>>>, i: nat, mean: seq<T> -> T): (r: Result<seq<seq<seq<T>>>>)
    ensures r.Ok? ==> |r.value| == if i < |data| then |data| - i else 0
    decreases |data| - i
  {
    if i >= |data| then Ok([])
    else match Delay(triggers, i)
      case Raised(f) => Raised(f)
      case Ok(d) =>
        DelayNonNegative(triggers, i);
        After([ShiftEvent(data[i], d, mean)], CorrectedFrom(triggers, data, i + 1, mean))
  }

  /** The data `_applyTimeCorrection` hands back. */
  function Corrected<T>(triggers: seq<seq<Column>>, data: seq<seq<seq<T>>>, mean: seq<T> -> T): Result<seq<seq<seq<T>>>> {
    CorrectedFrom(triggers, data, 0, mean)
  }

  /** Every event of the corrected data is its original shifted by its own
      delay, which is never negative; so every column at least as long as
      the delay keeps its length. */
  lemma {:induction false} CorrectedEvents<T>(triggers: seq<seq<Column>>, data: seq<seq<seq<T>>>, i: nat, mean: seq<T> -> T, n: nat)
    requires CorrectedFrom(triggers, data, i, mean).Ok? && i + n < |data|
    ensures Delay(triggers, i + n).Ok? && Delay(triggers, i + n).value >= 0
    ensures CorrectedFrom(triggers, data, i, mean).value[n] == ShiftEvent(data[i + n], Delay(triggers, i + n).value, mean)
    decreases n
  {
    DelayNonNegative(triggers, i);
    if n > 0 {
      CorrectedEvents(triggers, data, i + 1, mean, n - 1);
    }
  }

  // --------------------------------------------------------------- position

  /** `file.split("_")[1][:-4]`: the position part of a scan file name, the
      extension cut off. */
  function PositionText(file: string): Result<string> {
    var parts := Split(file, '_');
    if |parts| < 2 then Raised(IndexError) else Ok(ButLast(parts[1], 4))
  }

  /** `s[1:]` */
  function Tail(s: string): string {
    if s == [] then [] else s[1..]
  }

  /** `show` in `tools/analyzer.py`: the laser spot `(800 - x, y)` of a
      position text `x<x>y<y>`. The x part is read first. */
  function ShownSpot(pos: string): Result<(int, int)> {
    Spot(Split(pos, 'y'))
  }

  /** The spot of the pieces of a position text split at `y`. */
  function Spot(parts: seq<string>): Result<(int, int)>
    requires |parts| >= 1
  {
    var x := ParseInt(Tail(parts[0]));
    if x.None? then Raised(ValueError)
    else if |parts| < 2 then Raised(IndexError)
    else
      var y := ParseInt(parts[1]);
      if y.None? then Raised(ValueError) else Ok((800 - x.value, y.value))
  }

  /** The constructor in `tools/mean.py`: `xpos` read as an integer with no
      offset, `ypos` kept as text. */
  function MeanSpot(file: string): Result<(int, string)> {
    match PositionText(file)
    case Raised(f) => Raised(f)
    case Ok(head) =>
      var parts := Split(head, 'y');
      match ParseInt(Tail(parts[0]))
      case None => Raised(ValueError)
      case Some(x) => if |parts| < 2 then Raised(IndexError) else Ok((x, parts[1]))
  }

  /** The name of the file of scan point `(x, y)`: a path and bias part
      without `_`, then `_x<x>y<y>.txt`. */
  function ScanName(prefix: string, x: int, y: int): string {
    prefix + "_x" + Decimal(x) + "y" + Decimal(y) + ".txt"
  }

  /** Neither `_` nor `y` occurs in a decimal. */
  lemma DecimalFree(n: int)
    ensures '_' !in Decimal(n) && 'y' !in Decimal(n)
  {
    DecimalChars(n);
  }

  /** Two parts joined by a separator found in neither split back apart. */
  lemma SplitTwo(a: string, b: string, sep: char)
    requires sep !in a && sep !in b
    ensures Split(a + [sep] + b, sep) == [a, b]
  {
    assert Join([b], sep) == b;
    assert Join([a, b], sep) == a + [sep] + b;
    SplitJoin([a, b], sep);
  }

  /** The position text of a scan point splits at `y` into `x<x>` and `<y>`. */
  lemma PositionSplit(x: int, y: int)
    ensures Split("x" + Decimal(x) + "y" + Decimal(y), 'y') == ["x" + Decimal(x), Decimal(y)]
    ensures Tail("x" + Decimal(x)) == Decimal(x)
  {
    DecimalFree(x);
    DecimalFree(y);
    var xs := "x" + Decimal(x);
    assert 'y' !in xs;
    assert "x" + Decimal(x) + "y" + Decimal(y) == xs + ['y'] + Decimal(y);
    SplitTwo(xs, Decimal(y), 'y');
  }

  /** The file name of a scan point yields its position text. */
  lemma ScanNamePosition(prefix: string, x: int, y: int)
    requires '_' !in prefix
    ensures PositionText(ScanName(prefix, x, y)) == Ok("x" + Decimal(x) + "y" + Decimal(y))
  {
    DecimalFree(x);
    DecimalFree(y);
    var core := "x" + Decimal(x) + "y" + Decimal(y);
    var rest := core + ".txt";
    assert '_' !in core;
    assert '_' !in rest;
    assert ScanName(prefix, x, y) == prefix + ['_'] + rest;
    SplitTwo(prefix, rest, '_');
    assert ButLast(rest, 4) == core;
  }

  /** The analyser shows the spot `(800 - x, y)` of the position text it was
      given. */
  lemma ShownSpotRoundTrip(x: int, y: int)
    ensures ShownSpot("x" + Decimal(x) + "y" + Decimal(y)) == Ok((800 - x, y))
  {
    PositionSplit(x, y);
    var xs, ys := "x" + Decimal(x), Decimal(y);
    assert Spot([xs, ys]) == Ok((800 - x, y)) by {
      ParseIntDecimal(x);
      ParseIntDecimal(y);
      var parts := [xs, ys];
      assert parts[0] == xs && parts[1] == ys;
      SpotOf(parts, x, y);
    }
  }

  lemma SpotOf(parts: seq<string>, x: int, y: int)
    requires |parts| == 2
    requires ParseInt(Tail(parts[0])) == Some(x) && ParseInt(parts[1]) == Some(y)
    ensures Spot(parts) == Ok((800 - x, y))
  {
    SpotFields(parts, x, y);
    var r := Spot(parts);
    var (a, b) := r.value;
    assert r == Ok((a, b));
  }

  /** `SpotOf`, one coordinate at a time. */
  lemma SpotFields(parts: seq<string>, x: int, y: int)
    requires |parts| == 2
    requires ParseInt(Tail(parts[0])) == Some(x) && ParseInt(parts[1]) == Some(y)
    ensures Spot(parts).Ok? && Spot(parts).value.0 == 800 - x && Spot(parts).value.1 == y
  {
  }

  /** The mean script reads back `x` and the text of `y` from the file name a
      scan point was written under. */
  lemma MeanSpotRoundTrip(prefix: string, x: int, y: int)
    requires '_' !in prefix
    ensures MeanSpot(ScanName(prefix, x, y)) == Ok((x, Decimal(y)))
  {
    ScanNamePosition(prefix, x, y);
    PositionSplit(x, y);
    ParseIntDecimal(x);
  }
}
