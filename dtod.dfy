/** The splitter of a large ROOT tree into per-worker trees
    (`tools/dtoD.py`). The main program starts one worker per start index
    `range(0, tot, tot / 8)`; worker `i` copies the entries from `i` up to
    the end of its share into a `TreeFile` of its own, entry by entry: 16
    channels and 2 triggers of one record each, then bias, position,
    frequency and event length, then `fill`. */
module DtoD {
  import opened Base
  import opened Buffers

  /** `PROCESSORS`: the number of workers. */
  const Processors: nat := 8

  /** The samples copied per channel and trigger. */
  const RecordLength: nat := 1024

  // ------------------------------------------------------------------- sink

  /** One committed entry of an output tree. */
  datatype Entry = Entry(bias: real, frequency: real, length: real, pos: seq<real>,
                         channels: seq<seq<real>>, triggers: seq<seq<real>>)

  /** The output `TreeFile`: the scalar branches `bias`, `freq` and `size`,
      the `pos` vector, the vectors `w0..w15` and `trg0, trg1`, and the
      entries committed so far. */
  class Sink {
    var bias: real
    var frequency: real
    var length: real
    var pos: seq<real>
    var channels: seq<seq<real>>
    var triggers: seq<seq<real>>
    var entries: seq<Entry>

    /** Every branch buffer as `clear` leaves it. */
    ghost predicate Cleared()
      reads this
    {
      && bias == 0.0 && frequency == 0.0 && length == 0.0 && pos == []
      && channels == Empties(16) && triggers == Empties(2)
    }

    /** `TreeFile(path, name)`: 16 channel vectors and 2 trigger vectors,
        all empty, the scalars zero. */
    constructor ()
      ensures Cleared() && entries == []
    {
      bias, frequency, length := 0.0, 0.0, 0.0;
      pos := [];
      var waves: seq<seq<real>> := [];
      for c := 0 to 16
        invariant waves == Empties(c)
      {
        waves := waves + [[]];
      }
      var trgs: seq<seq<real>> := [];
      for t := 0 to 2
        invariant trgs == Empties(t)
      {
        trgs := trgs + [[]];
      }
      channels, triggers := waves, trgs;
      entries := [];
    }

    /** `clear`: the scalars go back to zero and every vector is emptied;
        the committed entries stay. */
    method Clear()
      requires |channels| == 16 && |triggers| == 2
      modifies this
      ensures Cleared() && entries == old(entries)
    {
      length, frequency, bias := 0.0, 0.0, 0.0;
      pos := [];
      var cs := channels;
      for c := 0 to |cs|
        invariant |cs| == 16 && forall k :: 0 <= k < c ==> cs[k] == []
      {
        cs := cs[c := []];
      }
      var ts := triggers;
      for t := 0 to |ts|
        invariant |ts| == 2 && forall k :: 0 <= k < t ==> ts[k] == []
      {
        ts := ts[t := []];
      }
      channels, triggers := cs, ts;
    }

    /** `fill`: commit every branch as one entry, then clear. */
    method Fill()
      requires |channels| == 16 && |triggers| == 2
      modifies this
      ensures entries == old(entries) + [Entry(old(bias), old(frequency), old(length), old(pos), old(channels), old(triggers))]
      ensures Cleared()
    {
      entries := entries + [Entry(bias, frequency, length, pos, channels, triggers)];
      Clear();
    }

    /** `setChannel(index, data, length)`: only the addressed vector changes;
        it is emptied and refilled with the first `length` values of `data`.
        A bad index raises IndexError before anything changes; too short a
        `data` raises it after the values it has were pushed. */
    method SetChannel(index: int, data: seq<real>, length: int) returns (fault: Option<Fault>)
      modifies this
      ensures PyIndex(|old(channels)|, index).None? ==> fault == Some(IndexError) && channels == old(channels)
      ensures PyIndex(|old(channels)|, index).Some? ==>
                && fault == PushFault(data, length)
                && channels == old(channels)[PyIndex(|old(channels)|, index).value := Pushed(data, length)]
      ensures bias == old(bias) && frequency == old(frequency) && this.length == old(this.length)
      ensures pos == old(pos) && triggers == old(triggers) && entries == old(entries)
    {
      var k := PyIndex(|channels|, index);
      if k.None? {
        return Some(IndexError);
      }
      var vec;
      vec, fault := Push(data, length);
      channels := channels[k.value := vec];
    }

    /** `setTrigger(index, data, length)`: as `setChannel`, on the trigger
        vectors. */
    method SetTrigger(index: int, data: seq<real>, length: int) returns (fault: Option<Fault>)
      modifies this
      ensures PyIndex(|old(triggers)|, index).None? ==> fault == Some(IndexError) && triggers == old(triggers)
      ensures PyIndex(|old(triggers)|, index).Some? ==>
                && fault == PushFault(data, length)
                && triggers == old(triggers)[PyIndex(|old(triggers)|, index).value := Pushed(data, length)]
      ensures bias == old(bias) && frequency == old(frequency) && this.length == old(this.length)
      ensures pos == old(pos) && channels == old(channels) && entries == old(entries)
    {
      var k := PyIndex(|triggers|, index);
      if k.None? {
        return Some(IndexError);
      }
      var vec;
      vec, fault := Push(data, length);
      triggers := triggers[k.value := vec];
    }

    /** `setPosition(x, y)`: `x` and then `y` are appended; the vector is not
        emptied first, so only `clear` keeps one entry's position from
        running into the next. */
    method SetPosition(x: real, y: real)
      modifies this
      ensures pos == old(pos) + [x, y]
      ensures bias == old(bias) && frequency == old(frequency) && length == old(length)
      ensures channels == old(channels) && triggers == old(triggers) && entries == old(entries)
    {
      pos := pos + [x];
      pos := pos + [y];
    }

    /** `setBias`, `setFrequency` and `setEventLength` overwrite one scalar. */
    method SetBias(b: real)
      modifies this
      ensures bias == b && frequency == old(frequency) && length == old(length) && pos == old(pos)
      ensures channels == old(channels) && triggers == old(triggers) && entries == old(entries)
    {
      bias := b;
    }

    method SetFrequency(f: real)
      modifies this
      ensures frequency == f && bias == old(bias) && length == old(length) && pos == old(pos)
      ensures channels == old(channels) && triggers == old(triggers) && entries == old(entries)
    {
      frequency := f;
    }

    method SetEventLength(l: real)
      modifies this
      ensures length == l && bias == old(bias) && frequency == old(frequency) && pos == old(pos)
      ensures channels == old(channels) && triggers == old(triggers) && entries == old(entries)
    {
      length := l;
    }
  }

  // --------------------------------------------------------------- one entry

  /** One entry of the input tree as `GetEntry` loads it into the branch
      buffers of `w0..w15`, `trg0, trg1`, `pos`, `bias`, `freq` and `size`. */
  datatype Source = Source(channels: seq<seq<real>>, triggers: seq<seq<real>>, pos: seq<real>,
                           bias: real, freq: real, size: real)

  /** The input tree has the branches the worker binds. */
  predicate Branched(s: Source) {
    |s.channels| == 16 && |s.triggers| == 2
  }

  /** An entry every read of the worker stays inside: one record per vector
      and at least two coordinates. */
  predicate Copyable(s: Source)
    requires Branched(s)
  {
    && (forall j :: 0 <= j < 16 ==> |s.channels[j]| >= RecordLength)
    && (forall j :: 0 <= j < 2 ==> |s.triggers[j]| >= RecordLength)
    && |s.pos| >= 2
  }

  /** The entry the worker commits for a copyable input entry: the first
      record of every vector, the first two coordinates, the three scalars. */
  function Copy(s: Source): (r: Entry)
    requires Branched(s) && Copyable(s)
    ensures |r.channels| == 16 && |r.triggers| == 2 && r.pos == s.pos[..2]
    ensures forall j :: 0 <= j < 16 ==> r.channels[j] == s.channels[j][..RecordLength]
    ensures forall j :: 0 <= j < 2 ==> r.triggers[j] == s.triggers[j][..RecordLength]
    ensures r.bias == s.bias && r.frequency == s.freq && r.length == s.size
  {
    Entry(s.bias, s.freq, s.size, [s.pos[0], s.pos[1]],
          seq(16, j requires 0 <= j < 16 => s.channels[j][..RecordLength]),
          seq(2, j requires 0 <= j < 2 => s.triggers[j][..RecordLength]))
  }

  /** The body of the worker's loop for one input entry: copy the 16
      channels and the 2 triggers, set bias, position, frequency and event
      length, commit. A vector shorter than a record or a position with
      fewer than two coordinates raises IndexError. */
  method CopyEntry(out: Sink, s: Source) returns (fault: Option<Fault>)
    requires Branched(s) && out.Cleared()
    modifies out
    ensures fault.None? <==> Copyable(s)
    ensures fault.Some? ==> fault.value == IndexError
    ensures fault.None? ==> out.Cleared() && out.entries == old(out.entries) + [Copy(s)]
  {
    for j := 0 to 16
      invariant |out.channels| == 16
      invariant forall k :: 0 <= k < j ==> |s.channels[k]| >= RecordLength && out.channels[k] == s.channels[k][..RecordLength]
      invariant out.bias == 0.0 && out.frequency == 0.0 && out.length == 0.0 && out.pos == []
      invariant out.triggers == Empties(2) && out.entries == old(out.entries)
    {
      fault := out.SetChannel(j, s.channels[j], RecordLength);
      if fault.Some? {
        return;
      }
    }
    for j := 0 to 2
      invariant |out.triggers| == 2 && |out.channels| == 16
      invariant forall k :: 0 <= k < 16 ==> |s.channels[k]| >= RecordLength && out.channels[k] == s.channels[k][..RecordLength]
      invariant forall k :: 0 <= k < j ==> |s.triggers[k]| >= RecordLength && out.triggers[k] == s.triggers[k][..RecordLength]
      invariant out.bias == 0.0 && out.frequency == 0.0 && out.length == 0.0 && out.pos == []
      invariant out.entries == old(out.entries)
    {
      fault := out.SetTrigger(j, s.triggers[j], RecordLength);
      if fault.Some? {
        return;
      }
    }
    out.SetBias(s.bias);
    if |s.pos| < 2 {
      return Some(IndexError);
    }
    out.SetPosition(s.pos[0], s.pos[1]);
    out.SetFrequency(s.freq);
    out.SetEventLength(s.size);
    assert Copyable(s);
    assert out.channels == Copy(s).channels;
    assert out.triggers == Copy(s).triggers;
    assert Entry(out.bias, out.frequency, out.length, out.pos, out.channels, out.triggers) == Copy(s);
    out.Fill();
    return None;
  }

  // ------------------------------------------------------------------ shares

  /** `int(tot / PROCESSORS)`: the entries each worker is given. */
  function Share(tot: nat): nat {
    tot / Processors
  }

  /** `range(a, tot, step)`: the start indices from `a` on. */
  function Starts(a: nat, tot: nat, step: nat): (r: seq<nat>)
    requires step > 0
    ensures forall k :: 0 <= k < |r| ==> a <= r[k] < tot
    decreases tot - a
  {
    if a >= tot then [] else [a] + Starts(a + step, tot, step)
  }

  /** The start indices the main program maps the workers over, or the
      ValueError `range` raises for a step of zero, which a tree of fewer
      than 8 entries gives. */
  function Workers(tot: nat): (r: Result<seq<nat>>)
    ensures r.Raised? <==> tot < Processors
    ensures r.Raised? ==> r.fault == ValueError
  {
    if Share(tot) == 0 then Raised(ValueError) else Ok(Starts(0, tot, Share(tot)))
  }

  /** The end of worker `i`'s range as written: `i + share`, or `tot - i`
      when that passes `tot`. Either way no entry past the tree is read. */
  function ChunkEnd(i: nat, tot: nat): (end: int)
    ensures end <= tot
  {
    if i + Share(tot) > tot then tot - i else i + Share(tot)
  }

  /** The end the last worker evidently needs: its share, cut at `tot`. */
  function ShareEnd(i: nat, tot: nat): (end: nat)
    ensures end <= tot
    ensures i + Share(tot) <= tot ==> end == i + Share(tot)
  {
    if i + Share(tot) <= tot then i + Share(tot) else tot
  }

  /** The number of workers, among those starting at `starts`, whose range
      `range(i, end(i))` holds entry `e`. */
  function Owners(starts: seq<nat>, e: nat, end: nat -> int): nat
  {
    if starts == [] then 0
    else (if starts[0] <= e < end(starts[0]) then 1 else 0) + Owners(starts[1..], e, end)
  }

  /** With ends cut at `tot`, the workers starting at `a` or later hold each
      entry from `a` on exactly once, and no entry before `a`. */
  lemma {:induction false} StartsPartition(a: nat, tot: nat, step: nat, e: nat, end: nat -> int)
    requires step > 0 && e < tot
    requires forall i: nat :: end(i) == if i + step <= tot then i + step else tot
    ensures Owners(Starts(a, tot, step), e, end) == if a <= e then 1 else 0
    decreases tot - a
  {
    if a < tot {
      StartsPartition(a + step, tot, step, e, end);
    }
  }

  /** Split as evidently intended, the workers copy every entry of a tree
      of at least 8 entries exactly once. */
  lemma SharesPartition(tot: nat, e: nat)
    requires tot >= Processors && e < tot
    ensures Workers(tot).Ok? && Owners(Workers(tot).value, e, (i: nat) => ShareEnd(i, tot)) == 1
  {
    StartsPartition(0, tot, Share(tot), e, (i: nat) => ShareEnd(i, tot));
  }

  /** Split as written, a tree of 17 entries is given to 9 workers starting
      at 0, 2, ..., 16, and the last entry belongs to none of them: the
      worker at 16 gets `range(16, 1)`. */
  lemma ChunkEndDropsLast()
    ensures Workers(17) == Ok([0, 2, 4, 6, 8, 10, 12, 14, 16])
    ensures Owners(Workers(17).value, 16, (i: nat) => ChunkEnd(i, 17)) == 0
  {
    assert Share(17) == 2;
    assert Starts(0, 17, 2) == [0, 2, 4, 6, 8, 10, 12, 14, 16];
  }

  // ------------------------------------------------------------------ worker

  /** Every input entry has the branches the worker binds. */
  predicate Tree(src: seq<Source>) {
    forall k :: 0 <= k < |src| ==> Branched(src[k])
  }

  /** The entries worker `i` commits from entry `e` up to `end`: one copy
      per entry, until an entry that cannot be copied raises IndexError or
      the progress report of worker 0 divides by `tot / 100`, which is zero
      for a tree of fewer than 100 entries. */
  function Copied(src: seq<Source>, i: nat, e: nat, end: int): Result<seq<Entry>>
    requires Tree(src) && end <= |src|
    decreases end - e
  {
    if e >= end then Ok([])
    else if !Copyable(src[e]) then Raised(IndexError)
    else if i == 0 && |src| / 100 == 0 then Raised(ZeroDivisionError)
    else After([Copy(src[e])], Copied(src, i, e + 1, end))
  }

  /** What `parse(i)` commits, reading the tree `src`. */
  function Parsed(src: seq<Source>, i: nat): Result<seq<Entry>>
    requires Tree(src)
  {
    Copied(src, i, i, ChunkEnd(i, |src|))
  }

  /** `parse(i)`: copy the entries of the range into a fresh tree. */
  method Parse(src: seq<Source>, i: nat) returns (r: Result<seq<Entry>>)
    requires Tree(src)
    ensures r == Parsed(src, i)
  {
    var tot := |src|;
    var end := ChunkEnd(i, tot);
    var out := new Sink();
    var e := i;
    assert After([], Parsed(src, i)) == Parsed(src, i) by {
      if Parsed(src, i).Ok? {
        assert [] + Parsed(src, i).value == Parsed(src, i).value;
      }
    }
    while e < end
      invariant out.Cleared()
      invariant Parsed(src, i) == After(out.entries, Copied(src, i, e, end))
      decreases end - e
    {
      ghost var done := out.entries;
      var fault := CopyEntry(out, src[e]);
      if fault.Some? {
        return Raised(fault.value);
      }
      if i == 0 && tot / 100 == 0 {
        return Raised(ZeroDivisionError);
      }
      Appended(done, [Copy(src[e])], if Copied(src, i, e + 1, end).Ok? then Copied(src, i, e + 1, end).value else []);
      e := e + 1;
    }
    assert out.entries + [] == out.entries;
    return Ok(out.entries);
  }

  /** A worker that finishes commits one entry per index of its range, the
      copy of that input entry. */
  lemma {:induction false} CopiedEntries(src: seq<Source>, i: nat, e: nat, end: int, n: nat)
    requires Tree(src) && end <= |src| && Copied(src, i, e, end).Ok?
    ensures |Copied(src, i, e, end).value| == if e < end then end - e else 0
    ensures e + n < end ==> Copyable(src[e + n]) && Copied(src, i, e, end).value[n] == Copy(src[e + n])
    decreases end - e
  {
    if e < end {
      if n == 0 {
        CopiedEntries(src, i, e + 1, end, 0);
      } else {
        CopiedEntries(src, i, e + 1, end, n - 1);
      }
    }
  }

  /** Worker 0 of a tree of 8 to 99 entries commits its first entry and then
      stops at the progress report with ZeroDivisionError. */
  lemma SmallTreeStops(src: seq<Source>)
    requires Tree(src) && Processors <= |src| < 100 && Copyable(src[0])
    ensures Parsed(src, 0) == Raised(ZeroDivisionError)
  {
  }
}
