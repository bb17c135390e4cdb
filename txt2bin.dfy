/** `tools/txt2bin.py`: read a waveform text file and write every sample as
    two big-endian unsigned bytes, event by event, column by column, sample
    by sample, with nothing else in the file. */
module Txt2Bin {
  import opened Base
  import opened WaveText

  type Byte = b: int | 0 <= b < 256

  /** The samples `to_bytes(2, signed=False)` accepts. */
  predicate Fits(sample: int) {
    0 <= sample < 65536
  }

  predicate AllFit(s: seq<int>) {
    forall k :: 0 <= k < |s| ==> Fits(s[k])
  }

  /** `int.from_bytes(pair, "big")`, the reading the format is made for. */
  function FromBytes(hi: Byte, lo: Byte): int {
    hi * 256 + lo
  }

  /** `sample.to_bytes(2, byteorder="big", signed=False)`: OverflowError for
      a sample out of range. */
  function ToBytes(sample: int): (r: Result<seq<Byte>>)
    ensures r.Ok? <==> Fits(sample)
    ensures r.Ok? ==> |r.value| == 2 && FromBytes(r.value[0], r.value[1]) == sample
  {
    if Fits(sample) then Ok([sample / 256, sample % 256]) else Raised(OverflowError)
  }

  /** The bytes of samples that all fit. */
  function Encode(s: seq<int>): (bytes: seq<Byte>)
    requires AllFit(s)
    ensures |bytes| == 2 * |s|
    decreases |s|
  {
    if s == [] then [] else ToBytes(s[0]).value + Encode(s[1..])
  }

  /** The samples of a file of byte pairs; an odd byte at the end is not a
      sample. */
  function Decode(bytes: seq<Byte>): (s: seq<int>)
    ensures |s| == |bytes| / 2 && AllFit(s)
    decreases |bytes|
  {
    if |bytes| < 2 then [] else [FromBytes(bytes[0], bytes[1])] + Decode(bytes[2..])
  }

  /** Every sample written is read back. */
  lemma {:induction false} DecodeEncode(s: seq<int>)
    requires AllFit(s)
    ensures Decode(Encode(s)) == s
    decreases |s|
  {
    if s != [] {
      var b := Encode(s);
      assert b[2..] == Encode(s[1..]);
      DecodeEncode(s[1..]);
    }
  }

  /** Every file of byte pairs is what some samples are written as. */
  lemma {:induction false} EncodeDecode(bytes: seq<Byte>)
    requires |bytes| % 2 == 0
    ensures Encode(Decode(bytes)) == bytes
    decreases |bytes|
  {
    if bytes != [] {
      var s := Decode(bytes);
      assert s[1..] == Decode(bytes[2..]);
      EncodeDecode(bytes[2..]);
      assert bytes == bytes[..2] + bytes[2..];
    }
  }

  lemma {:induction false} EncodeAppend(a: seq<int>, b: seq<int>)
    requires AllFit(a) && AllFit(b)
    ensures AllFit(a + b) && Encode(a + b) == Encode(a) + Encode(b)
    decreases |a|
  {
    if a != [] {
      assert (a + b)[1..] == a[1..] + b;
      EncodeAppend(a[1..], b);
    } else {
      assert a + b == b;
    }
  }

  // ------------------------------------------------------------ the stream

  /** The samples of an event in the order they are written. */
  function Flat(e: Event): seq<int>
    decreases |e|
  {
    if e == [] then [] else e[0] + Flat(e[1..])
  }

  lemma {:induction false} FlatAppend(a: Event, b: Event)
    ensures Flat(a + b) == Flat(a) + Flat(b)
    decreases |a|
  {
    if a != [] {
      assert (a + b)[1..] == a[1..] + b;
      FlatAppend(a[1..], b);
    } else {
      assert a + b == b;
    }
  }

  /** Every event was read. */
  predicate Whole(events: seq<Option<Event>>) {
    forall k :: 0 <= k < |events| ==> events[k].Some?
  }

  /** The samples the writing loops reach: those of the events before the
      first missing one. */
  function Samples(events: seq<Option<Event>>): seq<int>
    decreases |events|
  {
    if events == [] then []
    else match events[0]
      case None => []
      case Some(e) => Flat(e) + Samples(events[1..])
  }

  lemma {:induction false} SamplesSplit(events: seq<Option<Event>>, k: nat)
    requires k <= |events| && Whole(events[..k])
    ensures Samples(events) == Samples(events[..k]) + Samples(events[k..])
    decreases k
  {
    if k == 0 {
      assert events[k..] == events;
    } else {
      assert events[..k][1..] == events[1..][..k - 1];
      assert events[1..][k - 1..] == events[k..];
      SamplesSplit(events[1..], k - 1);
    }
  }

  /** The index of the first sample out of range, or the number of samples. */
  function FirstOut(s: seq<int>): (n: nat)
    ensures n <= |s| && AllFit(s[..n]) && (n < |s| ==> !Fits(s[n]))
    decreases |s|
  {
    if s == [] then 0
    else if !Fits(s[0]) then 0
    else
      var m := FirstOut(s[1..]);
      assert s[..m + 1] == [s[0]] + s[1..][..m];
      m + 1
  }

  lemma {:induction false} FirstOutAll(s: seq<int>)
    requires AllFit(s)
    ensures FirstOut(s) == |s|
    decreases |s|
  {
    if s != [] {
      FirstOutAll(s[1..]);
    }
  }

  /** What the output file holds once the loops stop, and what stopped them. */
  datatype Output = Output(bytes: seq<Byte>, fault: Option<Fault>)

  /** The writing loops: the bytes of every sample up to the first one out of
      range, which raises OverflowError; a missing event (`for channel in
      None`) raises TypeError once the events before it are written. */
  function Written(events: seq<Option<Event>>): Output {
    var s := Samples(events);
    var n := FirstOut(s);
    Output(Encode(s[..n]),
      if n < |s| then Some(OverflowError)
      else if !Whole(events) then Some(TypeError)
      else None)
  }

  /** `init`: nothing is written when reading raises. */
  function Converted(text: string): Result<Output> {
    match Read(text)
    case Raised(f) => Raised(f)
    case Ok(events) => Ok(Written(events))
  }

  // ----------------------------------------------------------- the loops

  /** Samples that all fit followed by ones that do not: the first out of
      range is found past the ones that fit, and the bytes written stop there. */
  lemma {:induction false} StopInside(p: seq<int>, q: seq<int>, rest: seq<int>)
    requires AllFit(p) && FirstOut(q) < |q|
    ensures FirstOut(p + q + rest) == |p| + FirstOut(q)
    ensures (p + q + rest)[..|p| + FirstOut(q)] == p + q[..FirstOut(q)]
    decreases |p|
  {
    var m := FirstOut(q);
    if p == [] {
      assert p + q + rest == q + rest;
      FirstOutWithin(q, rest);
    } else {
      assert (p + q + rest)[1..] == p[1..] + q + rest;
      StopInside(p[1..], q, rest);
    }
  }

  lemma {:induction false} FirstOutWithin(q: seq<int>, rest: seq<int>)
    requires FirstOut(q) < |q|
    ensures FirstOut(q + rest) == FirstOut(q)
    decreases |q|
  {
    if Fits(q[0]) {
      assert (q + rest)[1..] == q[1..] + rest;
      FirstOutWithin(q[1..], rest);
    }
  }

  /** The events before the first missing one are all there is to write. */
  lemma StopsAt(events: seq<Option<Event>>, k: nat)
    requires k < |events| && Whole(events[..k]) && events[k].None?
    ensures Samples(events) == Samples(events[..k]) && !Whole(events)
  {
    SamplesSplit(events, k);
  }

  /** The samples of event `k` follow those of the events before it. */
  lemma EventNext(events: seq<Option<Event>>, k: nat)
    requires k < |events| && Whole(events[..k]) && events[k].Some?
    ensures Whole(events[..k + 1])
    ensures Samples(events[..k + 1]) == Samples(events[..k]) + Flat(events[k].value)
  {
    var p := events[..k + 1];
    SamplesSplit(p, k);
    assert p[..k] == events[..k];
    assert p[k..] == [events[k]];
    assert Samples([events[k]]) == Flat(events[k].value) + Samples([]);
  }

  /** The samples of the file go on from those of event `k`. */
  lemma EventRest(events: seq<Option<Event>>, k: nat)
    requires k < |events| && Whole(events[..k]) && events[k].Some?
    ensures Samples(events) == Samples(events[..k]) + Flat(events[k].value) + Samples(events[k + 1..])
  {
    SamplesSplit(events, k);
    assert events[k..][1..] == events[k + 1..];
  }

  /** The samples of column `j` follow those of the columns before it. */
  lemma ColumnNext(e: Event, j: nat)
    requires j < |e|
    ensures Flat(e[..j + 1]) == Flat(e[..j]) + e[j]
    ensures Flat(e) == Flat(e[..j]) + e[j] + Flat(e[j + 1..])
  {
    assert e[..j + 1] == e[..j] + [e[j]];
    FlatAppend(e[..j], [e[j]]);
    assert Flat([e[j]]) == e[j] + Flat([]);
    assert e == e[..j + 1] + e[j + 1..];
    FlatAppend(e[..j + 1], e[j + 1..]);
  }

  lemma AllFitWhole(s: seq<int>)
    requires FirstOut(s) == |s|
    ensures AllFit(s)
  {
    assert s[..|s|] == s;
  }

  /** `for sample in channel`: the bytes written until a sample does not fit,
      and how many samples were written. */
  method WriteColumn(channel: Column) returns (bytes: seq<Byte>, n: nat)
    ensures n == FirstOut(channel) && bytes == Encode(channel[..n])
  {
    bytes := [];
    var i := 0;
    while i < |channel|
      invariant 0 <= i <= |channel|
      invariant AllFit(channel[..i]) && bytes == Encode(channel[..i])
    {
      var pair := ToBytes(channel[i]);
      if pair.Raised? {
        assert channel == channel[..i] + [channel[i]] + channel[i + 1..];
        StopInside(channel[..i], [channel[i]], channel[i + 1..]);
        assert [channel[i]][..0] == [];
        assert channel[..i] + [] == channel[..i];
        return bytes, i;
      }
      assert channel[..i + 1] == channel[..i] + [channel[i]];
      EncodeAppend(channel[..i], [channel[i]]);
      bytes := bytes + pair.value;
      i := i + 1;
    }
    assert channel[..i] == channel;
    FirstOutAll(channel);
    return bytes, i;
  }

  /** `for channel in event`: the bytes written until a sample does not fit,
      and how many samples were written. */
  method WriteEvent(event: Event) returns (bytes: seq<Byte>, n: nat)
    ensures n == FirstOut(Flat(event)) && bytes == Encode(Flat(event)[..n])
  {
    bytes := [];
    var j := 0;
    while j < |event|
      invariant 0 <= j <= |event|
      invariant AllFit(Flat(event[..j])) && bytes == Encode(Flat(event[..j]))
    {
      var more, m := WriteColumn(event[j]);
      ColumnNext(event, j);
      EncodeAppend(Flat(event[..j]), event[j][..m]);
      if m < |event[j]| {
        StopInside(Flat(event[..j]), event[j], Flat(event[j + 1..]));
        return bytes + more, |Flat(event[..j])| + m;
      }
      assert event[j][..m] == event[j];
      AllFitWhole(event[j]);
      bytes := bytes + more;
      j := j + 1;
    }
    assert event[..j] == event;
    FirstOutAll(Flat(event));
    assert Flat(event)[..|Flat(event)|] == Flat(event);
    return bytes, |Flat(event)|;
  }

  /** The three nested writing loops. */
  method Write(events: seq<Option<Event>>) returns (out: Output)
    ensures out == Written(events)
  {
    var bytes: seq<Byte> := [];
    var k := 0;
    while k < |events|
      invariant 0 <= k <= |events| && Whole(events[..k])
      invariant AllFit(Samples(events[..k])) && bytes == Encode(Samples(events[..k]))
    {
      if events[k].None? {
        StopsAt(events, k);
        FirstOutAll(Samples(events));
        assert Samples(events)[..|Samples(events)|] == Samples(events);
        return Output(bytes, Some(TypeError));
      }
      var event := events[k].value;
      var more, m := WriteEvent(event);
      EncodeAppend(Samples(events[..k]), Flat(event)[..m]);
      if m < |Flat(event)| {
        EventRest(events, k);
        StopInside(Samples(events[..k]), Flat(event), Samples(events[k + 1..]));
        return Output(bytes + more, Some(OverflowError));
      }
      assert Flat(event)[..m] == Flat(event);
      AllFitWhole(Flat(event));
      EventNext(events, k);
      bytes := bytes + more;
      k := k + 1;
    }
    assert events[..k] == events;
    FirstOutAll(Samples(events));
    assert Samples(events)[..|Samples(events)|] == Samples(events);
    return Output(bytes, None);
  }

  /** `init` as the script runs it. */
  method Run(text: string) returns (r: Result<Output>)
    ensures r == Converted(text)
  {
    var events := ReadEvents(text);
    match events
    case Raised(f) => return Raised(f);
    case Ok(es) =>
      var out := Write(es);
      return Ok(out);
  }

  // ------------------------------------------------------------ properties

  /** A file written without an exception is two bytes per sample, and reads
      back as the samples in event, column, sample order. */
  lemma WrittenRoundTrip(events: seq<Option<Event>>)
    requires Written(events).fault.None?
    ensures |Written(events).bytes| == 2 * |Samples(events)|
    ensures Decode(Written(events).bytes) == Samples(events)
  {
    var s := Samples(events);
    assert s[..|s|] == s;
    DecodeEncode(s);
  }

  /** Writing completes exactly when every event is there and every sample
      fits in two bytes. */
  lemma WrittenWhole(events: seq<Option<Event>>)
    ensures Written(events).fault.None? <==> Whole(events) && AllFit(Samples(events))
  {
    var s := Samples(events);
    if AllFit(s) {
      FirstOutAll(s);
    }
  }

  /** An empty file is read as `[None]`, so writing it raises TypeError and
      leaves the output file empty. */
  lemma EmptyText()
    ensures Converted("") == Ok(Output([], Some(TypeError)))
  {
    assert Lines("") == [];
    assert ReadFrom(Reader([], None), [], 0) == Ok(Reader([], None));
    var events: seq<Option<Event>> := [None];
    assert Reader([], None).events + [Reader([], None).event] == events;
    assert Read("") == Ok(events);
    assert events[0].None?;
    assert Samples(events) == [];
  }
}
