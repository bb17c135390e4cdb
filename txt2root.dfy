/** The converter from waveform text files to ROOT trees (`tools/txt2root.py`).
    A `TreeFile` owns one output tree: a time vector and one vector per
    channel and trigger branch. `convert` reads a text file, then for every
    event sets the time axis, routes each of the 18 columns to its channel or
    trigger vector and commits the entry; committing clears the vectors. */
module Txt2Root {
  import opened Base
  import opened WaveText
  import opened Buffers

  // ------------------------------------------------------------------ layout

  /** The rows a channel mask selects: `0b11` both groups of 9, `0b01` the
      first, `0b10` the second; any other mask selects none. */
  function Size(mask: int): nat {
    if mask == 3 then 18
    else if mask == 1 || mask == 2 then 9
    else 0
  }

  /** The first selected row: 9 when only the second group is selected. */
  function Start(mask: int): nat {
    if mask == 2 then 9 else 0
  }

  /** `int((8 / 9) * n)` for the row counts a mask gives (0, 9 and 18), whose
      products come out whole. */
  function EightNinths(n: nat): nat {
    n * 8 / 9
  }

  /** The branch numbers `first`, `first + 1`, ..., `count` of them. */
  function Branches(first: nat, count: nat): (r: seq<nat>)
    ensures |r| == count && forall c :: 0 <= c < count ==> r[c] == first + c
  {
    seq(count, c => first + c)
  }

  /** The numbers in the names `chn<n>` of the channel branches of a layout. */
  function ChannelBranches(mask: int): seq<nat> {
    Branches(EightNinths(Start(mask)), EightNinths(Size(mask)))
  }

  /** The numbers in the names `trg<n>` of the trigger branches. */
  function TriggerBranches(mask: int): seq<nat> {
    Branches(EightNinths(Start(mask)) / 8, EightNinths(Size(mask)) / 8)
  }

  /** Both groups give `chn0..chn15` and `trg0, trg1`; one group gives 8
      channels and one trigger, numbered as in the full layout; any other
      mask gives no branch at all. */
  lemma MaskLayout(mask: int)
    ensures mask == 3 ==> ChannelBranches(mask) == Branches(0, 16) && TriggerBranches(mask) == [0, 1]
    ensures mask == 1 ==> ChannelBranches(mask) == Branches(0, 8) && TriggerBranches(mask) == [0]
    ensures mask == 2 ==> ChannelBranches(mask) == Branches(8, 8) && TriggerBranches(mask) == [1]
    ensures mask !in {1, 2, 3} ==> ChannelBranches(mask) == [] && TriggerBranches(mask) == []
  {
  }

  // ------------------------------------------------------------------- tree

  /** One committed entry: the time axis and the channel and trigger
      vectors as they were at `tree.Fill()`. */
  datatype Entry = Entry(time: seq<real>, channels: seq<seq<int>>, triggers: seq<seq<int>>)

  /** `setTime(samples, frequency, abs)`: `samples` instants `1 / frequency`
      apart, from `abs` on. */
  function Times(samples: int, frequency: real, abs: real): (r: seq<real>)
    requires frequency != 0.0
    ensures |r| == if samples > 0 then samples else 0
    ensures forall t :: 0 <= t < |r| ==> r[t] == Instant(t, frequency, abs)
  {
    if samples <= 0 then [] else seq(samples, t requires 0 <= t => Instant(t, frequency, abs))
  }

  /** Instant `t` of the time axis. */
  function Instant(t: nat, frequency: real, abs: real): real
    requires frequency != 0.0
  {
    t as real * (1.0 / frequency) + abs
  }

  class TreeFile {
    var size: nat
    var start: nat
    var channelBranches: seq<nat>
    var triggerBranches: seq<nat>
    var time: seq<real>
    var channels: seq<seq<int>>
    var triggers: seq<seq<int>>
    /** The entries `tree.Fill()` has committed, oldest first. */
    var entries: seq<Entry>

    /** A layout whose buffers are all empty, nothing committed yet. */
    ghost predicate Fresh(mask: int)
      reads this
    {
      && size == Size(mask) && start == Start(mask)
      && channelBranches == ChannelBranches(mask) && triggerBranches == TriggerBranches(mask)
      && time == [] && channels == Empties(|channelBranches|) && triggers == Empties(|triggerBranches|)
    }

    /** `TreeFile(name, channelMask)`: one empty vector per branch the mask
      lays out. */
    constructor (mask: int)
      ensures Fresh(mask) && entries == []
    {
      size := Size(mask);
      start := Start(mask);
      var count := EightNinths(Size(mask));
      var first := EightNinths(Start(mask));
      var names: seq<nat> := [];
      var waves: seq<seq<int>> := [];
      for c := 0 to count
        invariant names == Branches(first, c) && waves == Empties(c)
      {
        names := names + [c + first];
        waves := waves + [[]];
      }
      var trgNames: seq<nat> := [];
      var trgWaves: seq<seq<int>> := [];
      for t := 0 to count / 8
        invariant trgNames == Branches(first / 8, t) && trgWaves == Empties(t)
      {
        trgNames := trgNames + [t + first / 8];
        trgWaves := trgWaves + [[]];
      }
      channelBranches := names;
      triggerBranches := trgNames;
      channels := waves;
      triggers := trgWaves;
      time := [];
      entries := [];
    }

    /** `clear`: the time vector and every channel and trigger vector are
        emptied; the layout and the committed entries stay. */
    method Clear()
      modifies this
      ensures time == [] && channels == Empties(|old(channels)|) && triggers == Empties(|old(triggers)|)
      ensures entries == old(entries) && size == old(size) && start == old(start)
      ensures channelBranches == old(channelBranches) && triggerBranches == old(triggerBranches)
    {
      time := [];
      var cs := channels;
      for c := 0 to |cs|
        invariant |cs| == |old(channels)|
        invariant forall k :: 0 <= k < c ==> cs[k] == []
      {
        cs := cs[c := []];
      }
      var ts := triggers;
      for t := 0 to |ts|
        invariant |ts| == |old(triggers)|
        invariant forall k :: 0 <= k < t ==> ts[k] == []
      {
        ts := ts[t := []];
      }
      channels, triggers := cs, ts;
    }

    /** `fill`: commit the current vectors as one entry, then clear them. */
    method Fill()
      modifies this
      ensures entries == old(entries) + [Entry(old(time), old(channels), old(triggers))]
      ensures time == [] && channels == Empties(|old(channels)|) && triggers == Empties(|old(triggers)|)
      ensures size == old(size) && start == old(start)
      ensures channelBranches == old(channelBranches) && triggerBranches == old(triggerBranches)
    {
      entries := entries + [Entry(time, channels, triggers)];
      Clear();
    }

    /** `setTime`: the time vector is refilled; a zero frequency raises
        ZeroDivisionError before anything changes. */
    method SetTime(samples: int, frequency: real, abs: real) returns (fault: Option<Fault>)
      modifies this
      ensures fault.Some? <==> frequency == 0.0
      ensures fault.Some? ==> fault.value == ZeroDivisionError && time == old(time)
      ensures fault.None? ==> time == Times(samples, frequency, abs)
      ensures channels == old(channels) && triggers == old(triggers) && entries == old(entries)
      ensures size == old(size) && start == old(start)
      ensures channelBranches == old(channelBranches) && triggerBranches == old(triggerBranches)
    {
      if frequency == 0.0 {
        return Some(ZeroDivisionError);
      }
      var axis: seq<real> := [];
      var t := 0;
      while t < samples
        invariant 0 <= t && (t <= samples || t == 0)
        invariant |axis| == t && forall k :: 0 <= k < t ==> axis[k] == Instant(k, frequency, abs)
      {
        axis := axis + [Instant(t, frequency, abs)];
        t := t + 1;
      }
      assert axis == Times(samples, frequency, abs);
      time := axis;
      return None;
    }

    /** `setChannel(index, data, length)`: only the addressed vector changes;
        it is emptied and refilled with the first `length` values of `data`.
        A bad index raises IndexError before anything changes; too short a
        `data` raises it after the values it has were pushed. */
    method SetChannel(index: int, data: seq<int>, length: int) returns (fault: Option<Fault>)
      modifies this
      ensures PyIndex(|old(channels)|, index).None? ==> fault == Some(IndexError) && channels == old(channels)
      ensures PyIndex(|old(channels)|, index).Some? ==>
                && fault == PushFault(data, length)
                && channels == old(channels)[PyIndex(|old(channels)|, index).value := Pushed(data, length)]
      ensures time == old(time) && triggers == old(triggers) && entries == old(entries)
      ensures size == old(size) && start == old(start)
      ensures channelBranches == old(channelBranches) && triggerBranches == old(triggerBranches)
    {
      var k := PyIndex(|channels|, index);
      if k.None? {
        return Some(IndexError);
      }
      var vec;
      vec, fault := Push(data, length);
      channels := channels[k.value := vec];
    }

    /** `setTrigger(index, data, length)`: as `setChannel`, on the trigger
        vectors. */
    method SetTrigger(index: int, data: seq<int>, length: int) returns (fault: Option<Fault>)
      modifies this
      ensures PyIndex(|old(triggers)|, index).None? ==> fault == Some(IndexError) && triggers == old(triggers)
      ensures PyIndex(|old(triggers)|, index).Some? ==>
                && fault == PushFault(data, length)
                && triggers == old(triggers)[PyIndex(|old(triggers)|, index).value := Pushed(data, length)]
      ensures time == old(time) && channels == old(channels) && entries == old(entries)
      ensures size == old(size) && start == old(start)
      ensures channelBranches == old(channelBranches) && triggerBranches == old(triggerBranches)
    {
      var k := PyIndex(|triggers|, index);
      if k.None? {
        return Some(IndexError);
      }
      var vec;
      vec, fault := Push(data, length);
      triggers := triggers[k.value := vec];
    }
  }

  // ---------------------------------------------------------------- routing

  /** Where `convert` sends a column of an event. */
  datatype Slot = Chn(n: nat) | Trg(n: nat)

  /** Columns 8 and 17, the fast triggers, go to trigger `i / 9`; every
      other column `i` to channel `i - i / 9`. */
  function Route(i: nat): Slot {
    if i == 8 || i == 17 then Trg(i / 9) else Chn(i - i / 9)
  }

  /** The column read into channel vector `k`. */
  function ChannelColumn(k: nat): nat {
    k + k / 8
  }

  /** The column read into trigger vector `t`. */
  function TriggerColumn(t: nat): nat {
    9 * t + 8
  }

  /** Routing is a one-to-one map of the 18 columns onto the 16 channel
      vectors and the 2 trigger vectors: each column lands on a vector that
      reads it back, and each vector is fed from its own column. */
  lemma RouteOnto(i: nat, k: nat, t: nat)
    ensures i < Columns && Route(i).Chn? ==> Route(i).n < 16 && ChannelColumn(Route(i).n) == i
    ensures i < Columns && Route(i).Trg? ==> Route(i).n < 2 && TriggerColumn(Route(i).n) == i
    ensures k < 16 ==> ChannelColumn(k) < Columns && Route(ChannelColumn(k)) == Chn(k)
    ensures t < 2 ==> TriggerColumn(t) < Columns && Route(TriggerColumn(t)) == Trg(t)
  {
  }

  /** Routing column by column: 0..7 to channels 0..7, 8 to trigger 0,
      9..16 to channels 8..15, 17 to trigger 1. */
  lemma RouteCases(i: nat)
    requires i < Columns
    ensures Route(i) == if i < 8 then Chn(i) else if i == 8 then Trg(0) else if i < 17 then Chn(i - 1) else Trg(1)
  {
    if i < 9 {
      assert i / 9 == 0;
    } else {
      assert i / 9 == 1;
    }
  }

  /** Channels 0..7 read columns 0..7 and channels 8..15 columns 9..16. */
  lemma ChannelColumnCases(k: nat)
    requires k < 16
    ensures ChannelColumn(k) == if k < 8 then k else k + 1
  {
    if k < 8 {
      assert k / 8 == 0;
    } else {
      assert k / 8 == 1;
    }
  }

  /** Different channel vectors read different columns. */
  lemma ChannelColumnsDiffer(k: nat, l: nat)
    requires k < l
    ensures ChannelColumn(k) < ChannelColumn(l)
  {
  }

  // ---------------------------------------------------------------- convert

  /** The frequency `convert` passes to `setTime`: 5 GS/s. */
  const Frequency: real := 5000000000.0

  /** The samples `convert` copies per column. */
  const RecordLength: nat := 1024

  /** An event `convert` can commit: no column past the 18 the layout
      routes, and every column at least one record long. */
  predicate Fits(e: Event) {
    |e| <= Columns && forall i :: 0 <= i < |e| ==> |e[i]| >= RecordLength
  }

  /** The first record of column `i`, or an empty vector if the event has
      no such column. */
  function Record(e: Event, i: nat): seq<int>
    requires Fits(e)
  {
    if i < |e| then e[i][..RecordLength] else []
  }

  /** The entry committed for an event that fits. */
  function Row(e: Event): Entry
    requires Fits(e)
  {
    Entry(Times(RecordLength, Frequency, 0.0),
          seq(16, k requires 0 <= k => Record(e, ChannelColumn(k))),
          seq(2, t requires 0 <= t => Record(e, TriggerColumn(t))))
  }

  /** The entries `convert` commits for a list of events: one per event,
      until an event that is None raises TypeError or one that does not fit
      raises IndexError. */
  function Converted(events: seq<Option<Event>>): (r: Result<seq<Entry>>)
    ensures r.Ok? ==> |r.value| == |events|
    ensures r.Ok? <==> forall n :: 0 <= n < |events| ==> events[n].Some? && Fits(events[n].value)
  {
    if events == [] then Ok([])
    else if events[0].None? then Raised(TypeError)
    else if !Fits(events[0].value) then Raised(IndexError)
    else
      match Converted(events[1..])
      case Raised(f) => Raised(f)
      case Ok(rest) =>
        assert forall n :: 1 <= n < |events| ==> events[n] == events[1..][n - 1];
        Ok([Row(events[0].value)] + rest)
  }

  /** The channels of an entry are the routed columns: channel `k` holds
      the first record of column `k + k / 8` and trigger `t` that of
      column `9 t + 8`. */
  lemma {:induction false} ConvertedEntries(events: seq<Option<Event>>, n: nat, k: nat, t: nat)
    requires Converted(events).Ok? && n < |events|
    ensures events[n].Some? && Fits(events[n].value)
    ensures Converted(events).value[n] == Row(events[n].value)
    ensures k < 16 ==> Converted(events).value[n].channels[k] == Record(events[n].value, ChannelColumn(k))
    ensures t < 2 ==> Converted(events).value[n].triggers[t] == Record(events[n].value, TriggerColumn(t))
    decreases n
  {
    if n > 0 {
      ConvertedEntries(events[1..], n - 1, k, t);
    }
  }

  /** The columns before `i` are all at least one record long. */
  predicate LongBefore(e: Event, i: nat) {
    i <= |e| && forall j :: 0 <= j < i ==> |e[j]| >= RecordLength
  }

  /** The record of column `col` once the columns before `i` are copied, an
      empty vector before that. */
  function Loaded(e: Event, i: nat, col: nat): seq<int>
    requires LongBefore(e, i)
  {
    if col < i then e[col][..RecordLength] else []
  }

  /** The channel vectors once the columns before `i` are copied. */
  function ChannelsAt(e: Event, i: nat): (r: seq<seq<int>>)
    requires LongBefore(e, i)
    ensures |r| == 16 && forall k :: 0 <= k < 16 ==> r[k] == Loaded(e, i, ChannelColumn(k))
  {
    seq(16, k requires 0 <= k => Loaded(e, i, ChannelColumn(k)))
  }

  /** The trigger vectors once the columns before `i` are copied. */
  function TriggersAt(e: Event, i: nat): (r: seq<seq<int>>)
    requires LongBefore(e, i)
    ensures |r| == 2 && forall t :: 0 <= t < 2 ==> r[t] == Loaded(e, i, TriggerColumn(t))
  {
    seq(2, t requires 0 <= t => Loaded(e, i, TriggerColumn(t)))
  }

  /** Copying the column of channel `n` changes channel `n` alone. */
  lemma ChannelColumnLoaded(e: Event, i: nat, n: nat)
    requires LongBefore(e, i + 1) && n < 16 && ChannelColumn(n) == i
    ensures ChannelsAt(e, i + 1) == ChannelsAt(e, i)[n := e[i][..RecordLength]]
  {
    forall k | 0 <= k < 16
      ensures ChannelsAt(e, i + 1)[k] == if k == n then e[i][..RecordLength] else ChannelsAt(e, i)[k]
    {
      if k < n {
        ChannelColumnsDiffer(k, n);
      } else if k > n {
        ChannelColumnsDiffer(n, k);
      }
    }
  }

  /** Copying the column of trigger `n` changes trigger `n` alone. */
  lemma TriggerColumnLoaded(e: Event, i: nat, n: nat)
    requires LongBefore(e, i + 1) && n < 2 && TriggerColumn(n) == i
    ensures TriggersAt(e, i + 1) == TriggersAt(e, i)[n := e[i][..RecordLength]]
  {
    assert TriggersAt(e, i + 1)[1 - n] == TriggersAt(e, i)[1 - n];
  }

  /** Copying a column no channel reads leaves the channels as they were. */
  lemma ChannelsKept(e: Event, i: nat)
    requires LongBefore(e, i + 1) && forall k :: 0 <= k < 16 ==> ChannelColumn(k) != i
    ensures ChannelsAt(e, i + 1) == ChannelsAt(e, i)
  {
  }

  /** Copying a column no trigger reads leaves the triggers as they were. */
  lemma TriggersKept(e: Event, i: nat)
    requires LongBefore(e, i + 1) && forall t :: 0 <= t < 2 ==> TriggerColumn(t) != i
    ensures TriggersAt(e, i + 1) == TriggersAt(e, i)
  {
  }

  /** The column routing sends to a channel is read by that channel and by
      no trigger; the one it sends to a trigger is read by that trigger and
      by no channel. */
  lemma RouteReads(i: nat)
    requires i < Columns
    ensures Route(i).Chn? ==> && Route(i).n < 16 && ChannelColumn(Route(i).n) == i
                              && forall t :: 0 <= t < 2 ==> TriggerColumn(t) != i
    ensures Route(i).Trg? ==> && Route(i).n < 2 && TriggerColumn(Route(i).n) == i
                              && forall k :: 0 <= k < 16 ==> ChannelColumn(k) != i
  {
    RouteCases(i);
    if Route(i).Trg? {
      forall k | 0 <= k < 16
        ensures ChannelColumn(k) != i
      {
        ChannelColumnCases(k);
      }
    } else {
      ChannelColumnCases(Route(i).n);
    }
  }

  /** The columns of event `e` before `i` are routed into the tree's
      vectors, and no other vector holds anything. */
  ghost predicate Routed(root: TreeFile, e: Event, i: nat)
    reads root
  {
    && LongBefore(e, i) && i <= Columns
    && root.channels == ChannelsAt(e, i) && root.triggers == TriggersAt(e, i)
  }

  /** One pass of the column loop: column `i` is copied into the vector
      routing sends it to. A column past the 18 the layout routes, or one
      shorter than a record, raises IndexError. */
  method RouteColumn(root: TreeFile, e: Event, i: nat) returns (fault: Option<Fault>)
    requires Routed(root, e, i) && i < |e|
    modifies root
    ensures fault.None? <==> i < Columns && |e[i]| >= RecordLength
    ensures fault.Some? ==> fault.value == IndexError
    ensures fault.None? ==> Routed(root, e, i + 1)
    ensures root.time == old(root.time) && root.entries == old(root.entries)
    ensures root.size == old(root.size) && root.start == old(root.start)
    ensures root.channelBranches == old(root.channelBranches) && root.triggerBranches == old(root.triggerBranches)
  {
    if i >= Columns {
      fault := root.SetChannel(i - i / 9, e[i], RecordLength);
      return;
    }
    RouteReads(i);
    var slot := Route(i);
    if slot.Trg? {
      fault := root.SetTrigger(slot.n, e[i], RecordLength);
      if fault.None? {
        TriggerColumnLoaded(e, i, slot.n);
        ChannelsKept(e, i);
      }
    } else {
      fault := root.SetChannel(slot.n, e[i], RecordLength);
      if fault.None? {
        ChannelColumnLoaded(e, i, slot.n);
        TriggersKept(e, i);
      }
    }
  }

  /** The body of `convert`'s loop for one event: set the time axis, copy
      each column into its vector, commit. */
  method ConvertEvent(root: TreeFile, e: Event) returns (fault: Option<Fault>)
    requires root.Fresh(3)
    modifies root
    ensures fault.None? <==> Fits(e)
    ensures fault.Some? ==> fault.value == IndexError
    ensures fault.None? ==> root.Fresh(3) && root.entries == old(root.entries) + [Row(e)]
  {
    MaskLayout(3);
    var f := root.SetTime(RecordLength, Frequency, 0.0);
    var i := 0;
    while i < |e|
      invariant Routed(root, e, i) && root.time == Times(RecordLength, Frequency, 0.0)
      invariant root.entries == old(root.entries) && root.size == 18 && root.start == 0
      invariant root.channelBranches == ChannelBranches(3) && root.triggerBranches == TriggerBranches(3)
    {
      fault := RouteColumn(root, e, i);
      if fault.Some? {
        return;
      }
      i := i + 1;
    }
    assert root.channels == seq(16, k requires 0 <= k => Record(e, ChannelColumn(k)));
    assert root.triggers == seq(2, t requires 0 <= t => Record(e, TriggerColumn(t)));
    assert Fits(e);
    root.Fill();
    return None;
  }

  /** `convert` after reading: one tree laid out for both groups, one
      committed entry per event. */
  method ConvertEvents(events: seq<Option<Event>>) returns (r: Result<seq<Entry>>)
    ensures r == Converted(events)
  {
    var root := new TreeFile(3);
    assert events[0..] == events;
    assert After([], Converted(events)) == Converted(events) by {
      if Converted(events).Ok? {
        assert [] + Converted(events).value == Converted(events).value;
      }
    }
    for n := 0 to |events|
      invariant root.Fresh(3)
      invariant Converted(events) == After(root.entries, Converted(events[n..]))
    {
      assert events[n..][1..] == events[n + 1..];
      var event := events[n];
      if event.None? {
        return Raised(TypeError);
      }
      ghost var done := root.entries;
      var fault := ConvertEvent(root, event.value);
      if fault.Some? {
        return Raised(fault.value);
      }
      assert Converted(events[n..]) == After([Row(event.value)], Converted(events[n + 1..]));
      Appended(done, [Row(event.value)], if Converted(events[n + 1..]).Ok? then Converted(events[n + 1..]).value else []);
    }
    assert events[|events|..] == [] && root.entries + [] == root.entries;
    return Ok(root.entries);
  }

  /** The output of `convert(orig, dest)` for the text of `orig`. */
  function ConvertedText(text: string): Result<seq<Entry>> {
    match Read(text)
    case Raised(f) => Raised(f)
    case Ok(events) => Converted(events)
  }

  /** `convert`: read the events of a text file, then commit them. */
  method Convert(text: string) returns (r: Result<seq<Entry>>)
    ensures r == ConvertedText(text)
  {
    var events := ReadEvents(text);
    if events.Raised? {
      return Raised(events.fault);
    }
    r := ConvertEvents(events.value);
  }

  /** Blocks as the acquisition writes them, every column one record long. */
  predicate Records(bs: seq<Block>) {
    forall m :: 0 <= m < |bs| ==> WellFormed(bs[m]) && |bs[m].event[0]| == RecordLength
  }

  /** The entries of such blocks, one per block. */
  function Rows(bs: seq<Block>): (r: seq<Entry>)
    requires Records(bs)
    ensures |r| == |bs|
  {
    seq(|bs|, m requires 0 <= m < |bs| => Row(bs[m].event))
  }

  /** Converting the text the acquisition writes for events whose 18 columns
      each hold one record commits one entry per event. */
  lemma ConvertFormat(bs: seq<Block>)
    requires bs != [] && Records(bs)
    ensures ConvertedText(Format(bs)) == Ok(Rows(bs))
  {
    var events := Wrap(Events(bs));
    assert ConvertedText(Format(bs)) == Converted(events) by {
      ReadFormat(bs);
    }
    ConvertedRows(bs, events);
  }

  /** The entries `convert` commits for the events of such blocks. */
  lemma ConvertedRows(bs: seq<Block>, events: seq<Option<Event>>)
    requires Records(bs) && events == Wrap(Events(bs))
    ensures Converted(events) == Ok(Rows(bs))
  {
    assert forall m :: 0 <= m < |events| ==> events[m] == Some(bs[m].event) && Fits(bs[m].event);
    assert Converted(events).Ok?;
    forall m | 0 <= m < |bs|
      ensures Converted(events).value[m] == Rows(bs)[m]
    {
      ConvertedEntries(events, m, 0, 0);
    }
    assert Converted(events).value == Rows(bs);
  }

  /** In the entry of a block, channel `k` is the block's column `k + k / 8`
      and trigger `t` its column `9 t + 8`, each whole. */
  lemma RowColumns(bs: seq<Block>, n: nat, k: nat, t: nat)
    requires Records(bs) && n < |bs| && k < 16 && t < 2
    ensures Rows(bs)[n].channels[k] == bs[n].event[ChannelColumn(k)]
    ensures Rows(bs)[n].triggers[t] == bs[n].event[TriggerColumn(t)]
  {
    ChannelColumnCases(k);
    var e := bs[n].event;
    assert e[ChannelColumn(k)][..RecordLength] == e[ChannelColumn(k)];
    assert e[TriggerColumn(t)][..RecordLength] == e[TriggerColumn(t)];
  }
}
