/** The acquisition script: it connects the power supply and the digitizer,
    programs the digitizer, then for each sensor bias drains events from the
    digitizer into a text file until more than MAX_EVENTS have been taken,
    watching an abort flag that the `q` key sets.

    The instruments are objects that record every call they receive in one
    shared log, so the order of the calls can be stated. What the digitizer
    delivers, what the power supply reports and which keys the operator
    presses are scripts handed to the model. */
module Acquisition {
  import opened Base
  import opened Text
  import WaveText

  const DigitizerModels: seq<string> := ["DT5742"]
  const SupplyModels: seq<string> := ["DT1471ET"]

  /** The digitizer status word of a board that is ready to acquire. */
  const ReadyStatus: int := 0x180

  /** Columns of the sample matrix: 2 groups of 9 channels. */
  const Columns: nat := 18

  /** The normalised configuration values the script reads. */
  datatype Settings = Settings(
    supplyId: int, digitizerId: int,
    groups: int, baseline: int, threshold: int, correction: bool,
    sensor: int, trigger: int, triggerBias: int,
    biases: seq<int>, maxEvents: int, keyboard: bool)

  /** The digitizer's programming calls (`setSamplingFrequency`, ...). */
  datatype Setting =
    | SamplingFrequency | RecordLength | MaxNumEventsBLT | AcquisitionMode
    | ExtTriggerInputMode | FastTriggerMode | FastTriggerDigitizing
    | GroupEnableMask | GroupTriggerPolarity | FastTriggerDCOffset
    | FastTriggerThreshold | LoadCorrectionData | EnableCorrection | PostTriggerSize

  /** Every call the script makes on an instrument, an operator prompt, or a
      file it writes. */
  datatype Op =
    | SupplyOpen(supplyId: int)
    | Enable(channel: int)
    | SetBias(channel: int, volts: int)
    | Disable(channel: int)
    | DigitizerOpen(digitizerId: int)
    | Reset
    | GetInfo
    | Program(setting: Setting, args: seq<int>)
    | GetStatus
    | AllocateEvent
    | MallocBuffer
    | Prompt
    | OpenFile(bias: int)
    | StartAcquisition
    | ReadData
    | Save(record: Record)
    | StopAcquisition
    | FreeEvent
    | FreeBuffer
    | Close

  /** One `np.savetxt` call: the matrix of an event under the header that
      gives its number and trigger time tag. */
  datatype Record = Record(number: int, tag: int, event: WaveText.Event)

  /** The record of calls, shared by every instrument of a session. */
  class Log {
    ghost var ops: seq<Op>

    constructor ()
      ensures ops == []
    {
      ops := [];
    }
  }

  // ------------------------------------------------------------- one event

  /** The samples of the 9 channels of one digitizer group (8 inputs and the
      digitised fast trigger); a channel's `ChSize` is its length. */
  datatype Group = Group(channels: seq<seq<int>>)

  /** One decoded event: `GrPresent`, `DataGroup` and the trigger time tag. */
  datatype EventData = EventData(present: seq<int>, groups: seq<Group>, tag: int)

  /** The fixed shape of the driver's event structure: (at least) 2 groups
      of 9 channels. */
  predicate Sound(d: EventData) {
    && |d.present| >= 2 && |d.groups| >= 2
    && |d.groups[0].channels| == 9 && |d.groups[1].channels| == 9
  }

  type Frame = d: EventData | Sound(d)
    witness EventData([0, 0], [Group([[], [], [], [], [], [], [], [], []]),
                               Group([[], [], [], [], [], [], [], [], []])], 0)

  /** The channel that feeds matrix column `k`: group `k / 9`, channel
      `k % 9`. */
  function Channel(d: Frame, k: nat): seq<int>
    requires k < Columns
  {
    d.groups[k / 9].channels[k % 9]
  }

  /** The largest `ChSize` among the first `n` columns' channels. */
  function MaxSize(d: Frame, n: nat): (rows: nat)
    requires n <= Columns
    ensures forall k :: 0 <= k < n ==> |Channel(d, k)| <= rows
    ensures n == 0 ==> rows == 0
    ensures n > 0 ==> exists k :: 0 <= k < n && |Channel(d, k)| == rows
  {
    if n == 0 then 0
    else
      var m := MaxSize(d, n - 1);
      if |Channel(d, n - 1)| > m then |Channel(d, n - 1)| else m
  }

  /** The matrix rows of an event: the longest of its 18 channels. */
  function Rows(d: Frame): nat {
    MaxSize(d, Columns)
  }

  /** Every channel of a present group reaches the row count, so filling
      the matrix reads no sample past the end of a channel. */
  predicate Readable(d: Frame) {
    forall k :: 0 <= k < Columns ==> d.present[k / 9] != 1 || |Channel(d, k)| == Rows(d)
  }

  /** The sample matrix of an event, column by column, or IndexError when a
      present group's channel is shorter than the row count. */
  function Matrix(d: Frame): Result<WaveText.Event>
  {
    if Readable(d) then
      Ok(seq(Columns, k requires 0 <= k < Columns =>
           seq(Rows(d), j requires 0 <= j < Rows(d) =>
             if d.present[k / 9] == 1 then Channel(d, k)[j] else 0)))
    else Raised(IndexError)
  }

  /** The `np.savetxt` header of an event. */
  function Header(number: int, tag: int): string {
    "Event number: " + Decimal(number) + " - Timestamp: " + Decimal(tag)
  }

  /** The size loop of `acquire`: `rows = max(rows, ChSize)` over the 18
      columns. */
  method CountRows(d: Frame) returns (rows: nat)
    ensures forall k :: 0 <= k < Columns ==> |Channel(d, k)| <= rows
    ensures exists k :: 0 <= k < Columns && |Channel(d, k)| == rows
    ensures rows == Rows(d)
  {
    rows := 0;
    for j := 0 to Columns
      invariant rows == MaxSize(d, j)
    {
      var group := j / 9;
      var channel := j - 9 * group;
      if |d.groups[group].channels[channel]| > rows {
        rows := |d.groups[group].channels[channel]|;
      }
    }
  }

  /** How many samples of column `k` the fill loop has copied once it has
      done the rows before `j` and, in row `j`, the columns before `kk`. */
  function Copied(j: nat, kk: nat, k: nat): nat {
    if k < kk then j + 1 else j
  }

  /** The matrix at that point of the fill loop: the copied samples of
      present groups hold the channel's samples, everything else is 0. */
  ghost predicate FilledUpTo(d: Frame, mat: seq<seq<int>>, rows: nat, j: nat, kk: nat) {
    && |mat| == Columns
    && (forall k :: 0 <= k < Columns ==> |mat[k]| == rows)
    && (forall k :: 0 <= k < Columns && d.present[k / 9] == 1 ==> Copied(j, kk, k) <= |Channel(d, k)|)
    && (forall k, i :: 0 <= k < Columns && 0 <= i < rows ==>
          mat[k][i] == if d.present[k / 9] == 1 && i < Copied(j, kk, k) then Channel(d, k)[i] else 0)
  }

  /** The fill loop of `acquire`: row by row, column by column, sample `j`
      of group `k / 9`, channel `k % 9`, into column `k`; columns of an
      absent group keep their zeros. */
  method FillMatrix(d: Frame, rows: nat) returns (r: Result<WaveText.Event>)
    requires rows == Rows(d)
    ensures r == Matrix(d)
    ensures r.Ok? <==> Readable(d)
    ensures r.Ok? ==> && |r.value| == Columns
                      && forall k :: 0 <= k < Columns ==>
                           && |r.value[k]| == rows
                           && forall j :: 0 <= j < rows ==>
                                r.value[k][j] == if d.present[k / 9] == 1 then Channel(d, k)[j] else 0
  {
    var mat: seq<seq<int>> := seq(Columns, k => seq(rows, j => 0));
    for j := 0 to rows
      invariant FilledUpTo(d, mat, rows, j, 0)
    {
      var next := FillRow(d, mat, rows, j);
      if next.Raised? {
        return Raised(IndexError);
      }
      mat := next.value;
      NextRow(d, mat, rows, j);
    }
    FilledAll(d, mat, rows);
    return Ok(mat);
  }

  lemma NextRow(d: Frame, mat: seq<seq<int>>, rows: nat, j: nat)
    requires FilledUpTo(d, mat, rows, j, Columns)
    ensures FilledUpTo(d, mat, rows, j + 1, 0)
  {
  }

  /** Once every row is filled, no read went past a channel and the matrix
      is the event's. */
  lemma FilledAll(d: Frame, mat: seq<seq<int>>, rows: nat)
    requires rows == Rows(d) && FilledUpTo(d, mat, rows, rows, 0)
    ensures Readable(d) && Matrix(d) == Ok(mat)
  {
    forall k | 0 <= k < Columns && d.present[k / 9] == 1
      ensures |Channel(d, k)| == Rows(d)
    {
      if rows > 0 {
        assert Copied(rows, 0, k) <= |Channel(d, k)|;
      }
    }
    var m := Matrix(d).value;
    forall k | 0 <= k < Columns
      ensures mat[k] == m[k]
    {
      forall i | 0 <= i < rows
        ensures mat[k][i] == m[k][i]
      {
      }
    }
    assert mat == m;
  }

  /** One row of the fill loop: the inner `for k in range(columns)`. */
  method FillRow(d: Frame, mat: seq<seq<int>>, rows: nat, j: nat) returns (r: Result<seq<seq<int>>>)
    requires rows == Rows(d) && j < rows && FilledUpTo(d, mat, rows, j, 0)
    ensures r.Ok? ==> FilledUpTo(d, r.value, rows, j, Columns)
    ensures r.Raised? ==> !Readable(d)
  {
    var m := mat;
    for k := 0 to Columns
      invariant FilledUpTo(d, m, rows, j, k)
    {
      var group := k / 9;
      if d.present[group] != 1 {
        FillAbsent(d, m, rows, j, k);
        continue;
      }
      var channel := k - 9 * group;
      var samples := d.groups[group].channels[channel];
      assert samples == Channel(d, k);
      if j >= |samples| {
        ShortChannel(d, rows, j, k);
        return Raised(IndexError);
      }
      FillCell(d, m, rows, j, k);
      m := m[k := m[k][j := samples[j]]];
    }
    return Ok(m);
  }

  /** A column of an absent group is passed over. */
  lemma FillAbsent(d: Frame, m: seq<seq<int>>, rows: nat, j: nat, k: nat)
    requires k < Columns && FilledUpTo(d, m, rows, j, k) && d.present[k / 9] != 1
    ensures FilledUpTo(d, m, rows, j, k + 1)
  {
  }

  /** A present channel without sample `j` of a row below the row count
      makes the event unreadable. */
  lemma ShortChannel(d: Frame, rows: nat, j: nat, k: nat)
    requires rows == Rows(d) && j < rows && k < Columns
    requires d.present[k / 9] == 1 && j >= |Channel(d, k)|
    ensures !Readable(d)
  {
  }

  /** Copying sample `j` of a present group's channel into column `k`. */
  lemma FillCell(d: Frame, m: seq<seq<int>>, rows: nat, j: nat, k: nat)
    requires j < rows && k < Columns && FilledUpTo(d, m, rows, j, k)
    requires d.present[k / 9] == 1 && j < |Channel(d, k)|
    ensures FilledUpTo(d, m[k := m[k][j := Channel(d, k)[j]]], rows, j, k + 1)
  {
  }

  // ------------------------------------------------------------ instruments

  /** The digitizer as the script drives it. `blocks` are what successive
      `readData` calls fetch from the board; `buffer` is the block fetched
      last. */
  class Digitizer {
    const log: Log
    /** The model name `getInfo` reports. */
    const model: string
    /** The status word `status` reports. */
    const status: int
    var blocks: seq<seq<Frame>>
    var buffer: seq<Frame>

    /** `digitizer.Digitizer(id)` */
    constructor (log: Log, id: int, model: string, status: int, blocks: seq<seq<Frame>>)
      modifies log
      ensures this.log == log && this.model == model && this.status == status
      ensures this.blocks == blocks && buffer == []
      ensures log.ops == old(log.ops) + [DigitizerOpen(id)]
    {
      this.log := log;
      this.model := model;
      this.status := status;
      this.blocks := blocks;
      buffer := [];
      new;
      log.ops := log.ops + [DigitizerOpen(id)];
    }

    method Reset()
      modifies log
      ensures log.ops == old(log.ops) + [Op.Reset]
    {
      log.ops := log.ops + [Op.Reset];
    }

    method GetInfo() returns (name: string)
      modifies log
      ensures name == model && log.ops == old(log.ops) + [Op.GetInfo]
    {
      log.ops := log.ops + [Op.GetInfo];
      name := model;
    }

    /** One of the `set...`/`load...`/`enable...` programming calls. */
    method Set(setting: Setting, args: seq<int>)
      modifies log
      ensures log.ops == old(log.ops) + [Program(setting, args)]
    {
      log.ops := log.ops + [Program(setting, args)];
    }

    method Status() returns (word: int)
      modifies log
      ensures word == status && log.ops == old(log.ops) + [Op.GetStatus]
    {
      log.ops := log.ops + [Op.GetStatus];
      word := status;
    }

    method AllocateEvent()
      modifies log
      ensures log.ops == old(log.ops) + [Op.AllocateEvent]
    {
      log.ops := log.ops + [Op.AllocateEvent];
    }

    method MallocBuffer()
      modifies log
      ensures log.ops == old(log.ops) + [Op.MallocBuffer]
    {
      log.ops := log.ops + [Op.MallocBuffer];
    }

    method StartAcquisition()
      modifies log
      ensures log.ops == old(log.ops) + [Op.StartAcquisition]
    {
      log.ops := log.ops + [Op.StartAcquisition];
    }

    method StopAcquisition()
      modifies log
      ensures log.ops == old(log.ops) + [Op.StopAcquisition]
    {
      log.ops := log.ops + [Op.StopAcquisition];
    }

    method FreeEvent()
      modifies log
      ensures log.ops == old(log.ops) + [Op.FreeEvent]
    {
      log.ops := log.ops + [Op.FreeEvent];
    }

    method FreeBuffer()
      modifies log
      ensures log.ops == old(log.ops) + [Op.FreeBuffer]
    {
      log.ops := log.ops + [Op.FreeBuffer];
    }

    method Close()
      modifies log
      ensures log.ops == old(log.ops) + [Op.Close]
    {
      log.ops := log.ops + [Op.Close];
    }

    /** `readData`: fetches the next block; `false` once the script of
        blocks is exhausted (the board would then go on delivering nothing). */
    method ReadData() returns (fetched: bool)
      modifies this, log
      ensures log.ops == old(log.ops) + [Op.ReadData]
      ensures fetched <==> old(blocks) != []
      ensures fetched ==> buffer == old(blocks)[0] && blocks == old(blocks)[1..]
      ensures !fetched ==> blocks == [] && buffer == old(buffer)
    {
      log.ops := log.ops + [Op.ReadData];
      fetched := blocks != [];
      if fetched {
        buffer := blocks[0];
        blocks := blocks[1..];
      }
    }

    method GetNumEvents() returns (n: nat)
      ensures n == |buffer|
    {
      n := |buffer|;
    }

    method GetEvent(i: nat) returns (d: Frame)
      requires i < |buffer|
      ensures d == buffer[i]
    {
      d := buffer[i];
    }
  }

  /** The power supply as the script drives it (its frames and confirm
      loops are the `HighVoltage` model; here every call returns). */
  class Supply {
    const log: Log
    const connected: bool
    /** `hv.getModel()`: the BDNAME value, `None` when that reply had ERR. */
    const model: Option<string>

    /** `highvoltage.HighVoltage(id)` */
    constructor (log: Log, id: int, connected: bool, model: Option<string>)
      modifies log
      ensures this.log == log && this.connected == connected && this.model == model
      ensures log.ops == old(log.ops) + [SupplyOpen(id)]
    {
      this.log := log;
      this.connected := connected;
      this.model := model;
      new;
      log.ops := log.ops + [SupplyOpen(id)];
    }

    method EnableChannel(channel: int)
      modifies log
      ensures log.ops == old(log.ops) + [Enable(channel)]
    {
      log.ops := log.ops + [Enable(channel)];
    }

    /** `setVoltage(channel, volts, True)` */
    method SetVoltage(channel: int, volts: int)
      modifies log
      ensures log.ops == old(log.ops) + [SetBias(channel, volts)]
    {
      log.ops := log.ops + [SetBias(channel, volts)];
    }

    method DisableChannel(channel: int)
      modifies log
      ensures log.ops == old(log.ops) + [Disable(channel)]
    {
      log.ops := log.ops + [Disable(channel)];
    }
  }

  // --------------------------------------------------------------- keyboard

  /** A key the listener reports: a character key, or a special key known
      only by its name. */
  datatype Key = Char(text: string) | Special(name: string)

  /** `key.char`, or `key.name` when the key has no character. */
  function Name(k: Key): string {
    if k.Char? then k.text else k.name
  }

  /** The quit key. */
  predicate IsQuit(k: Key) {
    Name(k) == "q"
  }

  /** Some key of `keys` is the quit key. */
  predicate Quits(keys: seq<Key>) {
    exists i :: 0 <= i < |keys| && IsQuit(keys[i])
  }

  /** The abort flag after `keypress` has seen `keys`, starting from `abort`. */
  function Pressed(abort: bool, keys: seq<Key>): bool
    decreases |keys|
  {
    if keys == [] then abort else Pressed(abort || IsQuit(keys[0]), keys[1..])
  }

  /** The flag is set exactly when it was already set or some key is `q`:
      nothing ever clears it. */
  lemma {:induction false} PressedQuit(abort: bool, keys: seq<Key>)
    ensures Pressed(abort, keys) <==> abort || Quits(keys)
    decreases |keys|
  {
    if keys != [] {
      PressedQuit(abort || IsQuit(keys[0]), keys[1..]);
      if Quits(keys[1..]) {
        var i :| 0 <= i < |keys[1..]| && IsQuit(keys[1..][i]);
        assert IsQuit(keys[i + 1]);
      }
      if Quits(keys) {
        var i :| 0 <= i < |keys| && IsQuit(keys[i]);
        if i > 0 {
          assert IsQuit(keys[1..][i - 1]);
        }
      }
    }
  }

  /** The keys pressed before the next abort check, and those after. */
  function Batch(batches: seq<seq<Key>>): seq<Key> {
    if batches == [] then [] else batches[0]
  }

  function Later(batches: seq<seq<Key>>): seq<seq<Key>> {
    if batches == [] then [] else batches[1..]
  }

  /** The keyboard listener and the global `abort` flag it sets. `pending`
      holds, for each coming abort check, the keys pressed before it. */
  class Keyboard {
    var abort: bool
    var pending: seq<seq<Key>>

    constructor (pending: seq<seq<Key>>)
      ensures this.pending == pending && !abort
    {
      this.pending := pending;
      abort := false;
    }

    /** `keypress(key)` */
    method Keypress(key: Key)
      modifies this`abort
      ensures abort == (old(abort) || IsQuit(key))
    {
      var k := Name(key);
      if k == "q" {
        abort := true;
      }
    }

    /** The listener thread handles the keys pressed before the next check. */
    method Deliver()
      modifies this
      ensures abort == Pressed(old(abort), Batch(old(pending)))
      ensures pending == Later(old(pending))
    {
      var keys := Batch(pending);
      pending := Later(pending);
      for i := 0 to |keys|
        invariant Pressed(old(abort), keys) == Pressed(abort, keys[i..])
        invariant pending == Later(old(pending))
      {
        assert keys[i..][1..] == keys[i + 1..];
        Keypress(keys[i]);
      }
      assert keys[|keys|..] == [];
    }
  }

  // ------------------------------------------------------------------ setup

  /** The programming calls of `programDigitizer`: acquisition, trigger,
      then data processing. */
  function ProgramOps(s: Settings): seq<Op> {
    AcquisitionOps() + TriggerOps(s) + ProcessingOps(s)
  }

  function AcquisitionOps(): seq<Op> {
    [ Program(SamplingFrequency, [0]), Program(RecordLength, [1024]),
      Program(MaxNumEventsBLT, [1023]), Program(AcquisitionMode, [0]),
      Program(ExtTriggerInputMode, [0]) ]
  }

  function TriggerOps(s: Settings): seq<Op> {
    [ Program(FastTriggerMode, [1]), Program(FastTriggerDigitizing, [1]),
      Program(GroupEnableMask, [s.groups]),
      Program(GroupTriggerPolarity, [0, 0]), Program(GroupTriggerPolarity, [1, 0]),
      Program(FastTriggerDCOffset, [s.baseline]), Program(FastTriggerThreshold, [s.threshold]) ]
  }

  function ProcessingOps(s: Settings): seq<Op> {
    (if s.correction then [Program(LoadCorrectionData, [0]), Program(EnableCorrection, [])] else [])
    + [Program(PostTriggerSize, [50])]
  }

  /** The correction tables are loaded and enabled exactly when the
      configuration asks for the internal correction, and the programming
      always ends with the post-trigger size. */
  lemma ProgramCorrection(s: Settings)
    ensures Program(EnableCorrection, []) in ProgramOps(s) <==> s.correction
    ensures Program(LoadCorrectionData, [0]) in ProgramOps(s) <==> s.correction
    ensures ProgramOps(s)[|ProgramOps(s)| - 1] == Program(PostTriggerSize, [50])
  {
    var ops := ProgramOps(s);
    if !s.correction {
      assert forall i :: 0 <= i < |ops| ==> ops[i].setting != EnableCorrection && ops[i].setting != LoadCorrectionData;
    } else {
      assert ops[12] == Program(LoadCorrectionData, [0]);
      assert ops[13] == Program(EnableCorrection, []);
    }
  }

  method ProgramDigitizer(dgt: Digitizer, s: Settings)
    modifies dgt.log
    ensures dgt.log.ops == old(dgt.log.ops) + ProgramOps(s)
  {
    ProgramAcquisition(dgt);
    ProgramTrigger(dgt, s);
    ProgramProcessing(dgt, s);
  }

  method ProgramAcquisition(dgt: Digitizer)
    modifies dgt.log
    ensures dgt.log.ops == old(dgt.log.ops) + AcquisitionOps()
  {
    dgt.Set(SamplingFrequency, [0]);
    dgt.Set(RecordLength, [1024]);
    dgt.Set(MaxNumEventsBLT, [1023]);
    dgt.Set(AcquisitionMode, [0]);
    dgt.Set(ExtTriggerInputMode, [0]);
  }

  method ProgramTrigger(dgt: Digitizer, s: Settings)
    modifies dgt.log
    ensures dgt.log.ops == old(dgt.log.ops) + TriggerOps(s)
  {
    dgt.Set(FastTriggerMode, [1]);
    dgt.Set(FastTriggerDigitizing, [1]);
    dgt.Set(GroupEnableMask, [s.groups]);
    dgt.Set(GroupTriggerPolarity, [0, 0]);
    dgt.Set(GroupTriggerPolarity, [1, 0]);
    dgt.Set(FastTriggerDCOffset, [s.baseline]);
    dgt.Set(FastTriggerThreshold, [s.threshold]);
  }

  method ProgramProcessing(dgt: Digitizer, s: Settings)
    modifies dgt.log
    ensures dgt.log.ops == old(dgt.log.ops) + ProcessingOps(s)
  {
    if s.correction {
      dgt.Set(LoadCorrectionData, [0]);
      dgt.Set(EnableCorrection, []);
    }
    dgt.Set(PostTriggerSize, [50]);
  }

  /** `connectHighVoltage`: exits unless the supply connected and reports a
      supported model. */
  method ConnectHighVoltage(log: Log, s: Settings, connected: bool, model: Option<string>)
    returns (o: Outcome<Supply>)
    modifies log
    ensures o.Done? || o == Exited
    ensures o.Done? <==> connected && model.Some? && model.value in SupplyModels
    ensures o.Done? ==> fresh(o.value) && o.value.log == log
    ensures log.ops == old(log.ops) + [SupplyOpen(s.supplyId)]
  {
    var hv := new Supply(log, s.supplyId, connected, model);
    if !hv.connected {
      return Exited;
    }
    if hv.model.None? || hv.model.value !in SupplyModels {
      return Exited;
    }
    return Done(hv);
  }

  /** `connectDigitizer`: opens and resets the board, then exits unless it
      reports a supported model. */
  method ConnectDigitizer(log: Log, s: Settings, model: string, status: int, blocks: seq<seq<Frame>>)
    returns (o: Outcome<Digitizer>)
    modifies log
    ensures o.Done? || o == Exited
    ensures o.Done? <==> model in DigitizerModels
    ensures o.Done? ==> && fresh(o.value) && o.value.log == log && o.value.status == status
                        && o.value.blocks == blocks && o.value.buffer == []
    ensures log.ops == old(log.ops) + [DigitizerOpen(s.digitizerId), Reset, GetInfo]
  {
    var dgt := new Digitizer(log, s.digitizerId, model, status, blocks);
    dgt.Reset();
    var name := dgt.GetInfo();
    if name !in DigitizerModels {
      return Exited;
    }
    return Done(dgt);
  }

  /** `init`: the power supply first, then the digitizer, which is
      programmed and must report status 0x180 before its event and buffer
      are allocated. */
  method Init(log: Log, s: Settings, supplyConnected: bool, supplyModel: Option<string>,
              model: string, status: int, blocks: seq<seq<Frame>>)
    returns (o: Outcome<(Digitizer, Supply)>)
    modifies log
    ensures o.Done? || o == Exited
    ensures var supplied := supplyConnected && supplyModel.Some? && supplyModel.value in SupplyModels;
            var found := model in DigitizerModels;
            && (o.Done? <==> supplied && found && status == ReadyStatus)
            && (!supplied ==> log.ops == old(log.ops) + [SupplyOpen(s.supplyId)])
            && (supplied && !found ==>
                  log.ops == old(log.ops) + [SupplyOpen(s.supplyId), DigitizerOpen(s.digitizerId), Reset, GetInfo])
            && (supplied && found ==>
                  log.ops == old(log.ops) + [SupplyOpen(s.supplyId), DigitizerOpen(s.digitizerId), Reset, GetInfo]
                             + ProgramOps(s) + [GetStatus]
                             + (if status == ReadyStatus then [AllocateEvent, MallocBuffer] else []))
    ensures o.Done? ==> && fresh(o.value.0) && fresh(o.value.1)
                        && o.value.0.log == log && o.value.1.log == log
                        && o.value.0.blocks == blocks && o.value.0.buffer == []
  {
    ghost var opening := [SupplyOpen(s.supplyId), DigitizerOpen(s.digitizerId), Reset, GetInfo];
    var hv := ConnectHighVoltage(log, s, supplyConnected, supplyModel);
    if !hv.Done? {
      return Exited;
    }
    var dgt := ConnectDigitizer(log, s, model, status, blocks);
    Appended(old(log.ops), [SupplyOpen(s.supplyId)], [DigitizerOpen(s.digitizerId), Reset, GetInfo]);
    assert log.ops == old(log.ops) + opening;
    if !dgt.Done? {
      return Exited;
    }
    ghost var connected := log.ops;
    ProgramDigitizer(dgt.value, s);
    var word := dgt.value.Status();
    ghost var programmed := log.ops;
    assert programmed == connected + ProgramOps(s) + [GetStatus];
    if word != ReadyStatus {
      assert programmed + [] == programmed;
      return Exited;
    }
    dgt.value.AllocateEvent();
    dgt.value.MallocBuffer();
    Appended(programmed, [AllocateEvent], [MallocBuffer]);
    return Done((dgt.value, hv.value));
  }

  /** What `cleanup` does, in order: the digitizer is stopped, its event and
      buffer freed and its connection closed; then the sensor channel and the
      trigger channel are disabled. The supply is never closed. */
  function CleanupOps(s: Settings): seq<Op> {
    [StopAcquisition, FreeEvent, FreeBuffer, Close, Disable(s.sensor), Disable(s.trigger)]
  }

  method Cleanup(dgt: Digitizer, hv: Supply, s: Settings)
    requires dgt.log == hv.log
    modifies dgt.log
    ensures dgt.log.ops == old(dgt.log.ops) + CleanupOps(s)
  {
    dgt.StopAcquisition();
    dgt.FreeEvent();
    dgt.FreeBuffer();
    dgt.Close();
    hv.DisableChannel(s.sensor);
    hv.DisableChannel(s.trigger);
  }

  // ---------------------------------------------------------------- acquire

  /** The `Save` call for each record, in order. */
  function SaveOps(rs: seq<Record>): (ops: seq<Op>)
    ensures |ops| == |rs|
  {
    seq(|rs|, k requires 0 <= k < |rs| => Save(rs[k]))
  }

  /** The records written for a buffer, and the exception that stopped the
      writing, if any. */
  datatype Written = Written(fault: Option<Fault>, records: seq<Record>)

  /** The text block `savetxt` puts in the file for a record. */
  function Block(r: Record): WaveText.Block {
    WaveText.Block(Header(r.number, r.tag), r.event)
  }

  function Blocks(rs: seq<Record>): (bs: seq<WaveText.Block>)
    ensures |bs| == |rs| && forall k :: 0 <= k < |rs| ==> bs[k] == Block(rs[k])
  {
    seq(|rs|, k requires 0 <= k < |rs| => Block(rs[k]))
  }

  /** A header is a single line. */
  lemma HeaderLine(number: int, tag: int)
    ensures '\n' !in Header(number, tag)
  {
    DecimalChars(number);
    DecimalChars(tag);
  }

  /** What `acquire` writes for a fetched buffer whose first event is
      numbered `first`: one `savetxt` block per event, up to the first event
      whose matrix cannot be filled, and the exception that event raises. */
  function Saved(buffer: seq<Frame>, first: int): Written
    decreases |buffer|
  {
    if buffer == [] then Written(None, [])
    else if Matrix(buffer[0]).Raised? then Written(Some(Matrix(buffer[0]).fault), [])
    else
      var rest := Saved(buffer[1..], first + 1);
      Written(rest.fault, [Record(first, buffer[0].tag, Matrix(buffer[0]).value)] + rest.records)
  }

  /** Every event of a buffer is written unless one cannot be read; then
      the events before it are written and IndexError is raised. */
  lemma {:induction false} SavedFault(buffer: seq<Frame>, first: int)
    ensures var r := Saved(buffer, first);
            && |r.records| <= |buffer|
            && (r.fault.None? <==> forall i :: 0 <= i < |buffer| ==> Readable(buffer[i]))
            && (r.fault.None? ==> |r.records| == |buffer|)
            && (r.fault.Some? ==> r.fault.value == IndexError && |r.records| < |buffer| && !Readable(buffer[|r.records|]))
    decreases |buffer|
  {
    if buffer != [] {
      var tail := buffer[1..];
      SavedFault(tail, first + 1);
      var r := Saved(buffer, first);
      var rest := Saved(tail, first + 1);
      if Readable(buffer[0]) {
        assert |r.records| == 1 + |rest.records| && r.fault == rest.fault;
        if r.fault.None? {
          forall i | 0 <= i < |buffer|
            ensures Readable(buffer[i])
          {
            if i > 0 {
              assert buffer[i] == tail[i - 1];
            }
          }
        } else {
          assert buffer[|r.records|] == tail[|rest.records|];
        }
      } else {
        assert r == Written(Some(IndexError), []);
      }
    }
  }

  /** Event `i` of a buffer is written as the matrix of that event under the
      header numbered `first + i`. */
  lemma {:induction false} SavedEvents(buffer: seq<Frame>, first: int)
    ensures var r := Saved(buffer, first);
            && |r.records| <= |buffer|
            && forall i :: 0 <= i < |r.records| ==>
                 Readable(buffer[i]) && r.records[i] == Record(first + i, buffer[i].tag, Matrix(buffer[i]).value)
    decreases |buffer|
  {
    if buffer != [] {
      var tail := buffer[1..];
      SavedEvents(tail, first + 1);
      var r := Saved(buffer, first);
      var rest := Saved(tail, first + 1);
      if Readable(buffer[0]) {
        var blk := Record(first, buffer[0].tag, Matrix(buffer[0]).value);
        assert r.records == [blk] + rest.records;
        forall i | 1 <= i < |r.records|
          ensures Readable(buffer[i])
          ensures r.records[i] == Record(first + i, buffer[i].tag, Matrix(buffer[i]).value)
        {
          assert r.records[i] == rest.records[i - 1] && buffer[i] == tail[i - 1];
        }
      }
    }
  }

  /** The records of a buffer are numbered on from `first`, one per event,
      each with the time tag of its event. */
  lemma {:induction false} SavedNumbers(buffer: seq<Frame>, first: int)
    ensures var r := Saved(buffer, first);
            && |r.records| <= |buffer|
            && (r.fault.None? ==> |r.records| == |buffer|)
            && forall i :: 0 <= i < |r.records| ==> r.records[i].number == first + i && r.records[i].tag == buffer[i].tag
    decreases |buffer|
  {
    if buffer != [] {
      var tail := buffer[1..];
      SavedNumbers(tail, first + 1);
      if Matrix(buffer[0]).Ok? {
        var r := Saved(buffer, first);
        var rest := Saved(tail, first + 1);
        assert r.records == [Record(first, buffer[0].tag, Matrix(buffer[0]).value)] + rest.records;
        forall i | 1 <= i < |r.records|
          ensures r.records[i].number == first + i && r.records[i].tag == buffer[i].tag
        {
          assert r.records[i] == rest.records[i - 1] && buffer[i] == tail[i - 1];
        }
      }
    }
  }

  /** Writing two buffers one after the other numbers the second from where
      the first stopped. */
  lemma {:induction false} SavedAppend(a: seq<Frame>, b: seq<Frame>, first: int)
    requires Saved(a, first).fault.None?
    ensures Saved(a + b, first) == Written(Saved(b, first + |a|).fault, Saved(a, first).records + Saved(b, first + |a|).records)
    decreases |a|
  {
    if a == [] {
      assert a + b == b;
    } else {
      var ab := a + b;
      assert ab[0] == a[0] && ab[1..] == a[1..] + b;
      assert Matrix(a[0]).Ok?;
      var blk := Record(first, a[0].tag, Matrix(a[0]).value);
      SavedAppend(a[1..], b, first + 1);
      var tail := Saved(ab[1..], first + 1);
      assert Saved(ab, first) == Written(tail.fault, [blk] + tail.records);
      assert Saved(a, first).records == [blk] + Saved(a[1..], first + 1).records;
      assert first + 1 + |a[1..]| == first + |a|;
      assert tail.fault == Saved(b, first + |a|).fault;
      assert tail.records == Saved(a[1..], first + 1).records + Saved(b, first + |a|).records;
    }
  }

  /** A block as written by `savetxt` is one the file readers take back:
      its header is a single line and its 18 columns have the same length. */
  lemma SavedWellFormed(buffer: seq<Frame>, first: int)
    ensures forall k :: 0 <= k < |Saved(buffer, first).records| ==>
              WaveText.WellFormed(Block(Saved(buffer, first).records[k]))
  {
    var rs := Saved(buffer, first).records;
    SavedFault(buffer, first);
    SavedEvents(buffer, first);
    forall k | 0 <= k < |rs|
      ensures WaveText.WellFormed(Block(rs[k]))
    {
      HeaderLine(rs[k].number, rs[k].tag);
    }
  }

  /** The file of a fetched buffer read back by the tools' text reader gives
      the event matrices, one event per header, in order. */
  lemma SavedRead(buffer: seq<Frame>, first: int)
    requires buffer != [] && forall i :: 0 <= i < |buffer| ==> Readable(buffer[i])
    ensures var bs := Blocks(Saved(buffer, first).records);
            && (forall k :: 0 <= k < |bs| ==> WaveText.WellFormed(bs[k]))
            && WaveText.Read(WaveText.Format(bs))
               == Ok(seq(|buffer|, i requires 0 <= i < |buffer| => Some(Matrix(buffer[i]).value)))
  {
    var bs := Blocks(Saved(buffer, first).records);
    SavedWellFormed(buffer, first);
    SavedMatrices(buffer, first);
    WaveText.ReadFormat(bs);
  }

  /** The events of the records of a readable buffer are the matrices of
      its events. */
  lemma SavedMatrices(buffer: seq<Frame>, first: int)
    requires forall i :: 0 <= i < |buffer| ==> Readable(buffer[i])
    ensures WaveText.Wrap(WaveText.Events(Blocks(Saved(buffer, first).records)))
            == seq(|buffer|, i requires 0 <= i < |buffer| => Some(Matrix(buffer[i]).value))
  {
    SavedFault(buffer, first);
    SavedEvents(buffer, first);
    var rs := Saved(buffer, first).records;
    var bs := Blocks(rs);
    var ws := WaveText.Wrap(WaveText.Events(bs));
    assert |ws| == |buffer|;
    forall i | 0 <= i < |buffer|
      ensures ws[i] == Some(Matrix(buffer[i]).value)
    {
      assert bs[i] == Block(rs[i]);
    }
  }

  /** How the writing of a buffer goes on from event `i`. */
  lemma SavedNext(buffer: seq<Frame>, i: nat, first: int)
    requires i < |buffer|
    ensures var here := Saved(buffer[i..], first + i);
            var rest := Saved(buffer[i + 1..], first + i + 1);
            var m := Matrix(buffer[i]);
            && (m.Raised? ==> here == Written(Some(m.fault), []))
            && (m.Ok? ==> here == Written(rest.fault, [Record(first + i, buffer[i].tag, m.value)] + rest.records))
  {
    assert buffer[i..][1..] == buffer[i + 1..];
  }

  /** `acquire`: fetch a block, then fill and save the matrix of each of its
      events; the count returned is the block's event count. The first event
      is numbered with the count taken so far. With no block left in the
      script the model stops `Waiting`. */
  method Acquire(dgt: Digitizer, events: int) returns (o: Outcome<nat>)
    modifies dgt, dgt.log
    ensures old(dgt.blocks) == [] ==> && o == Waiting && dgt.blocks == []
                                      && dgt.log.ops == old(dgt.log.ops) + [ReadData]
    ensures old(dgt.blocks) != [] ==>
              var r := Saved(old(dgt.blocks)[0], events);
              && dgt.buffer == old(dgt.blocks)[0] && dgt.blocks == old(dgt.blocks)[1..]
              && dgt.log.ops == old(dgt.log.ops) + [ReadData] + SaveOps(r.records)
              && o == if r.fault.Some? then Failed(r.fault.value) else Done(|dgt.buffer|)
  {
    var fetched := dgt.ReadData();
    if !fetched {
      return Waiting;
    }
    var num := dgt.GetNumEvents();
    ghost var start := dgt.log.ops;
    ghost var bs: seq<Record> := [];
    for i := 0 to num
      invariant dgt.buffer == old(dgt.blocks)[0] && dgt.blocks == old(dgt.blocks)[1..]
      invariant dgt.log.ops == start + SaveOps(bs)
      invariant var tail := Saved(dgt.buffer[i..], events + i);
                Saved(dgt.buffer, events) == Written(tail.fault, bs + tail.records)
    {
      var d := dgt.GetEvent(i);
      var m := EventMatrix(d);
      if m.Raised? {
        SavedStops(dgt.buffer, i, events, bs);
        return Failed(m.fault);
      }
      var block := Record(events + i, d.tag, m.value);
      dgt.log.ops := dgt.log.ops + [Save(block)];
      SaveOpsAppend(bs, block);
      Appended(start, SaveOps(bs), [Save(block)]);
      SavedAdvance(dgt.buffer, i, events, bs);
      bs := bs + [block];
    }
    assert dgt.buffer[num..] == [];
    return Done(num);
  }

  /** The size loop and the fill loop of one event. */
  method EventMatrix(d: Frame) returns (m: Result<WaveText.Event>)
    ensures m == Matrix(d)
  {
    var rows := CountRows(d);
    m := FillMatrix(d, rows);
  }

  /** The records written up to event `i`, followed by a readable event `i`,
      are the records written up to event `i + 1`. */
  lemma SavedAdvance(buffer: seq<Frame>, i: nat, first: int, bs: seq<Record>)
    requires i < |buffer| && Matrix(buffer[i]).Ok?
    requires var tail := Saved(buffer[i..], first + i);
             Saved(buffer, first) == Written(tail.fault, bs + tail.records)
    ensures var tail := Saved(buffer[i + 1..], first + i + 1);
            var block := Record(first + i, buffer[i].tag, Matrix(buffer[i]).value);
            Saved(buffer, first) == Written(tail.fault, bs + [block] + tail.records)
  {
    SavedNext(buffer, i, first);
    var block := Record(first + i, buffer[i].tag, Matrix(buffer[i]).value);
    Appended(bs, [block], Saved(buffer[i + 1..], first + i + 1).records);
  }

  /** An unreadable event `i` stops the writing with what was written before it. */
  lemma SavedStops(buffer: seq<Frame>, i: nat, first: int, bs: seq<Record>)
    requires i < |buffer| && Matrix(buffer[i]).Raised?
    requires var tail := Saved(buffer[i..], first + i);
             Saved(buffer, first) == Written(tail.fault, bs + tail.records)
    ensures Saved(buffer, first) == Written(Some(Matrix(buffer[i]).fault), bs)
  {
    SavedNext(buffer, i, first);
    assert bs + [] == bs;
  }

  lemma SaveOpsAppend(rs: seq<Record>, r: Record)
    ensures SaveOps(rs + [r]) == SaveOps(rs) + [Save(r)]
  {
  }

  // ------------------------------------------------------------------ drain

  /** How a drain, or the sweep over the biases, ends. */
  datatype Stop =
    | Filled               // the count went past MAX_EVENTS (for a sweep: every drain did)
    | Aborted              // the abort flag was found set after a pass
    | Starved              // the scripted blocks ran out first; the board would be read again
    | Broken(fault: Fault) // an event could not be read and the exception ends the script

  /** The end of a drain: how it stopped, the calls it made, the final
      count, and what is left of the scripted blocks and of the flag
      values the coming checks will find. */
  datatype Drained = Drained(stop: Stop, ops: seq<Op>, events: int,
                             blocks: seq<seq<Frame>>, checks: seq<bool>)

  /** Whether the next check finds the flag set (it stays clear once the
      scripted keys have run out), and the checks after it. */
  function Flagged(checks: seq<bool>): bool {
    checks != [] && checks[0]
  }

  function Next(checks: seq<bool>): seq<bool> {
    if checks == [] then [] else checks[1..]
  }

  /** The flag value each coming check finds: set exactly when a `q` was
      among the keys pressed during that pass (the flag is clear before
      it, or the script has already ended). */
  function Flags(batches: seq<seq<Key>>): (fs: seq<bool>)
    ensures |fs| == |batches| && forall k :: 0 <= k < |batches| ==> fs[k] == Quits(batches[k])
  {
    seq(|batches|, k requires 0 <= k < |batches| => Quits(batches[k]))
  }

  lemma FlagsNext(batches: seq<seq<Key>>)
    ensures Flagged(Flags(batches)) == Quits(Batch(batches))
    ensures Next(Flags(batches)) == Flags(Later(batches))
  {
  }

  /** The `while events <= max` loop of `start`, from a count of `events`
      with the abort flag clear: one `acquire` per pass, after which the
      keys pressed during the pass have reached the flag and it is checked. */
  function Drain(blocks: seq<seq<Frame>>, checks: seq<bool>, events: int, max: int): Drained
    decreases |blocks|
  {
    if events > max then Drained(Filled, [], events, blocks, checks)
    else if blocks == [] then Drained(Starved, [ReadData], events, [], checks)
    else
      var w := Saved(blocks[0], events);
      var pass := [ReadData] + SaveOps(w.records);
      if w.fault.Some? then Drained(Broken(w.fault.value), pass, events, blocks[1..], checks)
      else
        var n := events + |blocks[0]|;
        if Flagged(checks) then Drained(Aborted, pass, n, blocks[1..], Next(checks))
        else
          var rest := Drain(blocks[1..], Next(checks), n, max);
          rest.(ops := pass + rest.ops)
  }

  /** The keys pressed during a pass reach the flag, and the loop checks
      it: `if abort`. */
  method Check(kb: Keyboard) returns (aborted: bool)
    requires !kb.abort
    modifies kb
    ensures aborted == kb.abort == Flagged(Flags(old(kb.pending)))
    ensures Flags(kb.pending) == Next(Flags(old(kb.pending)))
  {
    PressedQuit(false, Batch(kb.pending));
    FlagsNext(kb.pending);
    kb.Deliver();
    aborted := kb.abort;
  }

  /** The drain loop of one bias, the counter starting at 0. */
  method DrainBias(dgt: Digitizer, kb: Keyboard, max: int) returns (stop: Stop, events: int)
    requires !kb.abort
    modifies dgt, dgt.log, kb
    ensures var d := Drain(old(dgt.blocks), Flags(old(kb.pending)), 0, max);
            && stop == d.stop && events == d.events
            && dgt.blocks == d.blocks && Flags(kb.pending) == d.checks
            && dgt.log.ops == old(dgt.log.ops) + d.ops
            && kb.abort == (stop == Aborted)
  {
    events := 0;
    stop := Filled;
    ghost var total := Drain(dgt.blocks, Flags(kb.pending), 0, max);
    ghost var done: seq<Op> := [];
    ghost var start := dgt.log.ops;
    while events <= max
      invariant !kb.abort
      invariant var d := Drain(dgt.blocks, Flags(kb.pending), events, max);
                total == d.(ops := done + d.ops)
      invariant dgt.log.ops == start + done
      decreases |dgt.blocks|
    {
      ghost var before := done;
      var ended, count, pass := DrainStep(dgt, kb, events, max);
      Appended(start, before, pass);
      done := done + pass;
      if ended.Some? {
        assert total == Drained(ended.value, done, count, dgt.blocks, Flags(kb.pending));
        return ended.value, count;
      }
      ghost var rest := Drain(dgt.blocks, Flags(kb.pending), count, max);
      Appended(before, pass, rest.ops);
      events := count;
    }
    assert total == Drained(Filled, done, events, dgt.blocks, Flags(kb.pending));
  }

  /** One pass of the drain loop, as a step of `Drain`: either the drain
      ends with this pass, or it goes on from the new count and state. */
  method DrainStep(dgt: Digitizer, kb: Keyboard, events: int, ghost max: int)
    returns (ended: Option<Stop>, count: int, ghost pass: seq<Op>)
    requires !kb.abort && events <= max
    modifies dgt, dgt.log, kb
    ensures dgt.log.ops == old(dgt.log.ops) + pass
    ensures var d := Drain(old(dgt.blocks), Flags(old(kb.pending)), events, max);
            if ended.Some? then
              && ended.value == d.stop && count == d.events && pass == d.ops
              && dgt.blocks == d.blocks && Flags(kb.pending) == d.checks
              && kb.abort == (d.stop == Aborted)
            else
              var rest := Drain(dgt.blocks, Flags(kb.pending), count, max);
              && !kb.abort && |dgt.blocks| < |old(dgt.blocks)|
              && d == rest.(ops := pass + rest.ops)
  {
    DrainPass(dgt.blocks, Flags(kb.pending), events, max);
    ended, count, pass := DrainOnce(dgt, kb, events);
  }

  /** One pass of the drain loop: `events += acquire(dgt, out)`, then the
      keys pressed meanwhile reach the flag and it is checked. `ended` is
      how the drain stops when this pass stops it; `pass` is the calls it
      made. */
  method DrainOnce(dgt: Digitizer, kb: Keyboard, events: int)
    returns (ended: Option<Stop>, count: int, ghost pass: seq<Op>)
    requires !kb.abort
    modifies dgt, dgt.log, kb
    ensures dgt.log.ops == old(dgt.log.ops) + pass
    ensures old(dgt.blocks) == [] ==>
              && ended == Some(Starved) && pass == [ReadData] && count == events
              && dgt.blocks == [] && kb.pending == old(kb.pending) && !kb.abort
    ensures old(dgt.blocks) != [] ==>
              var w := Saved(old(dgt.blocks)[0], events);
              var checks := Flags(old(kb.pending));
              && pass == [ReadData] + SaveOps(w.records) && dgt.blocks == old(dgt.blocks)[1..]
              && (w.fault.Some? ==>
                    && ended == Some(Broken(w.fault.value)) && count == events
                    && kb.pending == old(kb.pending) && !kb.abort)
              && (w.fault.None? ==>
                    && count == events + |old(dgt.blocks)[0]|
                    && Flags(kb.pending) == Next(checks) && kb.abort == Flagged(checks)
                    && ended == if Flagged(checks) then Some(Aborted) else None)
  {
    ghost var blocks := dgt.blocks;
    count := events;
    ghost var start := dgt.log.ops;
    var o := Acquire(dgt, events);
    if o.Waiting? {
      return Some(Starved), count, [ReadData];
    }
    pass := [ReadData] + SaveOps(Saved(blocks[0], events).records);
    Appended(start, [ReadData], SaveOps(Saved(blocks[0], events).records));
    if o.Failed? {
      return Some(Broken(o.fault)), count, pass;
    }
    count := events + o.value;
    var aborted := Check(kb);
    if aborted {
      return Some(Aborted), count, pass;
    }
    return None, count, pass;
  }

  /** One pass of a drain below its quota: it starves when no block is
      left, breaks on an unreadable event, is aborted when the check finds
      the flag set, and otherwise goes on from the new count. */
  lemma DrainPass(blocks: seq<seq<Frame>>, checks: seq<bool>, events: int, max: int)
    requires events <= max
    ensures blocks == [] ==> Drain(blocks, checks, events, max) == Drained(Starved, [ReadData], events, [], checks)
    ensures blocks != [] ==>
              var w := Saved(blocks[0], events);
              var pass := [ReadData] + SaveOps(w.records);
              var rest := Drain(blocks[1..], Next(checks), events + |blocks[0]|, max);
              && (w.fault.Some? ==>
                    Drain(blocks, checks, events, max) == Drained(Broken(w.fault.value), pass, events, blocks[1..], checks))
              && (w.fault.None? && Flagged(checks) ==>
                    Drain(blocks, checks, events, max)
                    == Drained(Aborted, pass, events + |blocks[0]|, blocks[1..], Next(checks)))
              && (w.fault.None? && !Flagged(checks) ==>
                    Drain(blocks, checks, events, max) == rest.(ops := pass + rest.ops))
  {
  }

  /** The calls of a list of operations that `pick` selects, in order. */
  function Picked<T>(ops: seq<Op>, pick: Op -> seq<T>): seq<T>
    decreases |ops|
  {
    if ops == [] then [] else pick(ops[0]) + Picked(ops[1..], pick)
  }

  lemma {:induction false} PickedAppend<T>(a: seq<Op>, b: seq<Op>, pick: Op -> seq<T>)
    ensures Picked(a + b, pick) == Picked(a, pick) + Picked(b, pick)
    decreases |a|
  {
    if a != [] {
      assert (a + b)[0] == a[0] && (a + b)[1..] == a[1..] + b;
      PickedAppend(a[1..], b, pick);
      assert Picked(a + b, pick) == pick(a[0]) + Picked(a[1..] + b, pick);
    } else {
      assert a + b == b;
    }
  }

  /** The record of a `Save` call. */
  function SavedRecord(op: Op): seq<Record> {
    if op.Save? then [op.record] else []
  }

  /** The bias of an opened data file. */
  function OpenedFile(op: Op): seq<int> {
    if op.OpenFile? then [op.bias] else []
  }

  lemma {:induction false} PickedSaves(rs: seq<Record>)
    ensures Picked(SaveOps(rs), SavedRecord) == rs
    ensures Picked(SaveOps(rs), OpenedFile) == []
    decreases |rs|
  {
    if rs != [] {
      assert SaveOps(rs)[1..] == SaveOps(rs[1..]);
      PickedSaves(rs[1..]);
    }
  }

  /** The events of a run of blocks, one after the other. */
  function Flat(blocks: seq<seq<Frame>>): seq<Frame>
    decreases |blocks|
  {
    if blocks == [] then [] else blocks[0] + Flat(blocks[1..])
  }

  /** The largest block of a run. */
  function Largest(blocks: seq<seq<Frame>>): nat
    decreases |blocks|
  {
    if blocks == [] then 0
    else if |blocks[0]| > Largest(blocks[1..]) then |blocks[0]|
    else Largest(blocks[1..])
  }

  /** The count never goes down; a drain that fills has gone past `max`,
      and, started at or below `max`, it overshoots by at most the largest
      block. */
  lemma {:induction false} DrainCount(blocks: seq<seq<Frame>>, checks: seq<bool>, events: int, max: int)
    ensures var d := Drain(blocks, checks, events, max);
            && d.events >= events
            && (d.stop == Filled ==> d.events > max)
            && (d.stop == Starved || d.stop.Broken? ==> d.events <= max)
            && (events <= max ==> d.events <= max + Largest(blocks))
    decreases |blocks|
  {
    if events <= max && blocks != [] {
      DrainCount(blocks[1..], Next(checks), events + |blocks[0]|, max);
    }
  }

  /** What a drain that stopped at `d` wrote: the events of the blocks it
      consumed, in order, without a fault, and its count grew by their number. */
  ghost predicate WroteConsumed(blocks: seq<seq<Frame>>, events: int, d: Drained)
  {
    var k := |blocks| - |d.blocks|;
    && 0 <= k <= |blocks|
    && var w := Saved(Flat(blocks[..k]), events);
       && w.fault.None?
       && Picked(d.ops, SavedRecord) == w.records
       && d.events == events + |Flat(blocks[..k])|
  }

  /** When a drain fills or is aborted, it has written every event of the
      blocks it consumed, in order, and its count grew by their number. */
  lemma {:induction false} DrainRecords(blocks: seq<seq<Frame>>, checks: seq<bool>, events: int, max: int)
    ensures var d := Drain(blocks, checks, events, max);
            d.stop == Filled || d.stop == Aborted ==> WroteConsumed(blocks, events, d)
    decreases |blocks|
  {
    if events > max {
      assert blocks[..0] == [];
    } else if blocks != [] && Saved(blocks[0], events).fault.None? {
      if Flagged(checks) {
        DrainFlagged(blocks, checks, events, max);
      } else {
        DrainTail(blocks, checks, events, max);
      }
    }
  }

  /** The step of `DrainRecords` when the first check finds the flag set. */
  lemma DrainFlagged(blocks: seq<seq<Frame>>, checks: seq<bool>, events: int, max: int)
    requires events <= max && blocks != [] && Saved(blocks[0], events).fault.None? && Flagged(checks)
    ensures WroteConsumed(blocks, events, Drain(blocks, checks, events, max))
  {
    PassRecords(Saved(blocks[0], events).records);
    assert blocks[..1] == [blocks[0]];
    assert Flat([blocks[0]]) == blocks[0] + Flat([]);
    assert blocks[0] + [] == blocks[0];
  }

  /** A drain leaves a suffix of the scripted blocks. */
  lemma {:induction false} DrainSuffix(blocks: seq<seq<Frame>>, checks: seq<bool>, events: int, max: int)
    ensures var d := Drain(blocks, checks, events, max);
            |d.blocks| <= |blocks| && d.blocks == blocks[|blocks| - |d.blocks|..]
    decreases |blocks|
  {
    if events <= max && blocks != [] && Saved(blocks[0], events).fault.None? && !Flagged(checks) {
      DrainSuffix(blocks[1..], Next(checks), events + |blocks[0]|, max);
    }
  }

  /** The records of one pass are those of its `Save` calls. */
  lemma PassRecords(rs: seq<Record>)
    ensures Picked([ReadData] + SaveOps(rs), SavedRecord) == rs
  {
    PickedSaves(rs);
    PickedAppend([ReadData], SaveOps(rs), SavedRecord);
  }

  /** The step of `DrainRecords` after a pass that neither failed nor found
      the flag set. */
  lemma {:induction false} DrainTail(blocks: seq<seq<Frame>>, checks: seq<bool>, events: int, max: int)
    requires events <= max && blocks != [] && Saved(blocks[0], events).fault.None? && !Flagged(checks)
    ensures var d := Drain(blocks, checks, events, max);
            d.stop == Filled || d.stop == Aborted ==> WroteConsumed(blocks, events, d)
    decreases |blocks|, 0
  {
    var d := Drain(blocks, checks, events, max);
    var w := Saved(blocks[0], events);
    var pass := [ReadData] + SaveOps(w.records);
    var n := events + |blocks[0]|;
    var tail := blocks[1..];
    var rest := Drain(tail, Next(checks), n, max);
    DrainPass(blocks, checks, events, max);
    assert d == rest.(ops := pass + rest.ops);
    if rest.stop == Filled || rest.stop == Aborted {
      DrainRecords(tail, Next(checks), n, max);
      DrainTailJoin(blocks, events, w, pass, rest);
    }
  }

  /** The records of the first pass followed by those of the drain after it
      are the records of the blocks both consumed. */
  lemma DrainTailJoin(blocks: seq<seq<Frame>>, events: int, w: Written, pass: seq<Op>, rest: Drained)
    requires blocks != [] && w == Saved(blocks[0], events) && w.fault.None?
    requires pass == [ReadData] + SaveOps(w.records)
    requires WroteConsumed(blocks[1..], events + |blocks[0]|, rest)
    ensures WroteConsumed(blocks, events, rest.(ops := pass + rest.ops))
  {
    var tail := blocks[1..];
    var n := events + |blocks[0]|;
    var j := |tail| - |rest.blocks|;
    var k := j + 1;
    var taken := blocks[..k];
    assert taken[0] == blocks[0] && taken[1..] == tail[..j];
    var more := Saved(Flat(tail[..j]), n);
    SavedFlat(taken, events);
    assert Saved(Flat(taken), events) == Written(None, w.records + more.records);
    PassRecords(w.records);
    PickedAppend(pass, rest.ops, SavedRecord);
    assert Flat(taken) == taken[0] + Flat(taken[1..]);
  }

  /** Writing the events of a run of blocks is writing its first block, then
      the rest numbered on from there. */
  lemma SavedFlat(taken: seq<seq<Frame>>, events: int)
    requires taken != [] && Saved(taken[0], events).fault.None?
    ensures var more := Saved(Flat(taken[1..]), events + |taken[0]|);
            Saved(Flat(taken), events) == Written(more.fault, Saved(taken[0], events).records + more.records)
  {
    SavedAppend(taken[0], Flat(taken[1..]), events);
  }

  /** Event numbers run on without a gap: the `i`-th event a filled or
      aborted drain writes is numbered `events + i`, and it writes exactly
      as many events as its count grew by. */
  lemma DrainNumbering(blocks: seq<seq<Frame>>, checks: seq<bool>, events: int, max: int)
    requires Drain(blocks, checks, events, max).stop == Filled || Drain(blocks, checks, events, max).stop == Aborted
    ensures var d := Drain(blocks, checks, events, max);
            var rs := Picked(d.ops, SavedRecord);
            && |rs| == d.events - events
            && forall i :: 0 <= i < |rs| ==> rs[i].number == events + i
  {
    var d := Drain(blocks, checks, events, max);
    DrainRecords(blocks, checks, events, max);
    DrainSuffix(blocks, checks, events, max);
    var k := |blocks| - |d.blocks|;
    var flat := Flat(blocks[..k]);
    var w := Saved(flat, events);
    assert w.fault.None?;
    assert Picked(d.ops, SavedRecord) == w.records;
    assert d.events == events + |flat|;
    SavedNumbers(flat, events);
    assert |w.records| == |flat|;
  }

  /** A drain is aborted only when some check finds the flag set. */
  lemma {:induction false} DrainAbort(blocks: seq<seq<Frame>>, checks: seq<bool>, events: int, max: int)
    requires Drain(blocks, checks, events, max).stop == Aborted
    ensures exists k :: 0 <= k < |checks| && checks[k]
    decreases |blocks|
  {
    if !Flagged(checks) {
      DrainAbort(blocks[1..], Next(checks), events + |blocks[0]|, max);
      var k :| 0 <= k < |Next(checks)| && Next(checks)[k];
      assert Next(checks)[k] == checks[k + 1];
    }
  }

  /** A drain leaves a suffix of the flag values. */
  lemma {:induction false} DrainChecks(blocks: seq<seq<Frame>>, checks: seq<bool>, events: int, max: int)
    ensures var d := Drain(blocks, checks, events, max);
            |d.checks| <= |checks| && d.checks == checks[|checks| - |d.checks|..]
    decreases |blocks|
  {
    if events <= max && blocks != [] && Saved(blocks[0], events).fault.None? {
      if !Flagged(checks) {
        DrainChecks(blocks[1..], Next(checks), events + |blocks[0]|, max);
        if checks == [] {
          assert Next(checks) == checks[0..];
        } else {
          assert Next(checks) == checks[1..];
        }
      } else {
        assert Next(checks) == checks[1..];
      }
    }
  }

  /** A drain only reads the board and saves events: it opens no data
      file and changes no setting. */
  lemma {:induction false} DrainOps(blocks: seq<seq<Frame>>, checks: seq<bool>, events: int, max: int)
    ensures forall op :: op in Drain(blocks, checks, events, max).ops ==> op == ReadData || op.Save?
    decreases |blocks|
  {
    if events <= max && blocks != [] {
      var w := Saved(blocks[0], events);
      PassOps(w.records);
      if w.fault.None? && !Flagged(checks) {
        var rest := Drain(blocks[1..], Next(checks), events + |blocks[0]|, max);
        DrainOps(blocks[1..], Next(checks), events + |blocks[0]|, max);
        var pass := [ReadData] + SaveOps(w.records);
        assert Drain(blocks, checks, events, max).ops == pass + rest.ops;
        forall op | op in pass + rest.ops
          ensures op == ReadData || op.Save?
        {
          if op !in rest.ops {
            assert op in pass;
          }
        }
      }
    }
  }

  /** One pass of a drain reads the board and saves events. */
  lemma PassOps(rs: seq<Record>)
    ensures forall op :: op in [ReadData] + SaveOps(rs) ==> op == ReadData || op.Save?
  {
    forall op | op in [ReadData] + SaveOps(rs)
      ensures op == ReadData || op.Save?
    {
      if op != ReadData {
        var k :| 0 <= k < |rs| && SaveOps(rs)[k] == op;
      }
    }
  }

  /** Without an `OpenFile` call, no file is picked. */
  lemma {:induction false} UnopenedFiles(ops: seq<Op>)
    requires forall op :: op in ops ==> !op.OpenFile?
    ensures Picked(ops, OpenedFile) == []
  {
    if ops != [] {
      assert ops[0] in ops;
      UnopenedFiles(ops[1..]);
    }
  }

  // ------------------------------------------------------------------ start

  /** What `start` does before the first bias: both channels on, the
      trigger bias set and confirmed, then the operator prompt. */
  function IntroOps(s: Settings): seq<Op> {
    [Enable(s.sensor), Enable(s.trigger), SetBias(s.trigger, s.triggerBias), Prompt]
  }

  /** The calls for one sensor bias given its drain: bias set and confirmed,
      data file opened, acquisition started, the drain, and then how the
      bias ends. */
  function BiasOps(bias: int, d: Drained, s: Settings): seq<Op> {
    Opening(bias, s) + d.ops + Closing(d.stop, s)
  }

  function Opening(bias: int, s: Settings): seq<Op> {
    [SetBias(s.sensor, bias), OpenFile(bias), StartAcquisition]
  }

  /** After a full drain the acquisition is stopped; after an abort it is
      stopped and then the cleanup runs before the exit; a drain that
      breaks or starves adds nothing. */
  function Closing(stop: Stop, s: Settings): seq<Op> {
    if stop == Filled then [StopAcquisition]
    else if stop == Aborted then [StopAcquisition] + CleanupOps(s)
    else []
  }

  /** The end of the bias loop: how it stopped, its calls, and what is left
      of the scripts. */
  datatype Swept = Swept(stop: Stop, ops: seq<Op>, blocks: seq<seq<Frame>>, checks: seq<bool>)

  /** `for bias in SENSOR_BIAS`: each bias drains from a count of 0; the
      loop goes on to the next bias only after a drain that filled. */
  function Sweep(biases: seq<int>, blocks: seq<seq<Frame>>, checks: seq<bool>, s: Settings): Swept
    decreases |biases|
  {
    if biases == [] then Swept(Filled, [], blocks, checks)
    else
      var d := Drain(blocks, checks, 0, s.maxEvents);
      var here := BiasOps(biases[0], d, s);
      if d.stop == Filled then
        var rest := Sweep(biases[1..], d.blocks, d.checks, s);
        rest.(ops := here + rest.ops)
      else Swept(d.stop, here, d.blocks, d.checks)
  }

  lemma SweepStep(biases: seq<int>, blocks: seq<seq<Frame>>, checks: seq<bool>, s: Settings)
    requires biases != []
    ensures var d := Drain(blocks, checks, 0, s.maxEvents);
            var here := BiasOps(biases[0], d, s);
            var rest := Sweep(biases[1..], d.blocks, d.checks, s);
            && (d.stop == Filled ==> Sweep(biases, blocks, checks, s) == rest.(ops := here + rest.ops))
            && (d.stop != Filled ==> Sweep(biases, blocks, checks, s) == Swept(d.stop, here, d.blocks, d.checks))
  {
  }

  /** One turn of the bias loop of `start`. */
  method RunBias(dgt: Digitizer, hv: Supply, kb: Keyboard, s: Settings, bias: int) returns (stop: Stop)
    requires dgt.log == hv.log && !kb.abort
    modifies dgt, dgt.log, kb
    ensures var d := Drain(old(dgt.blocks), Flags(old(kb.pending)), 0, s.maxEvents);
            && stop == d.stop && dgt.blocks == d.blocks && Flags(kb.pending) == d.checks
            && dgt.log.ops == old(dgt.log.ops) + BiasOps(bias, d, s)
            && kb.abort == (stop == Aborted)
  {
    ghost var start := dgt.log.ops;
    hv.SetVoltage(s.sensor, bias);
    dgt.log.ops := dgt.log.ops + [OpenFile(bias)];
    dgt.StartAcquisition();
    assert dgt.log.ops == start + Opening(bias, s);
    var events;
    stop, events := DrainBias(dgt, kb, s.maxEvents);
    ghost var drained := dgt.log.ops;
    if stop == Aborted {
      dgt.StopAcquisition();
      Cleanup(dgt, hv, s);
      Appended(drained, [StopAcquisition], CleanupOps(s));
    } else if stop == Filled {
      dgt.StopAcquisition();
    }
    ghost var d := Drain(old(dgt.blocks), Flags(old(kb.pending)), 0, s.maxEvents);
    assert dgt.log.ops == drained + Closing(d.stop, s);
    Appended(start, Opening(bias, s), d.ops);
    Appended(start + Opening(bias, s), d.ops, Closing(d.stop, s));
    Appended(start, Opening(bias, s) + d.ops, Closing(d.stop, s));
  }

  /** `start`: the abort flag is cleared, the channels are prepared, then
      every bias is taken in list order. An abort ends the loop after the
      cleanup (the script exits); a pass that cannot go on ends it too. */
  method Start(dgt: Digitizer, hv: Supply, kb: Keyboard, s: Settings) returns (stop: Stop)
    requires dgt.log == hv.log
    modifies dgt, dgt.log, kb
    ensures var w := Sweep(s.biases, old(dgt.blocks), Flags(old(kb.pending)), s);
            && stop == w.stop && dgt.blocks == w.blocks && Flags(kb.pending) == w.checks
            && dgt.log.ops == old(dgt.log.ops) + IntroOps(s) + w.ops
  {
    kb.abort := false;
    hv.EnableChannel(s.sensor);
    hv.EnableChannel(s.trigger);
    hv.SetVoltage(s.trigger, s.triggerBias);
    dgt.log.ops := dgt.log.ops + [Prompt];
    assert dgt.log.ops == old(dgt.log.ops) + IntroOps(s);
    ghost var total := Sweep(s.biases, dgt.blocks, Flags(kb.pending), s);
    ghost var done: seq<Op> := [];
    ghost var start := dgt.log.ops;
    for i := 0 to |s.biases|
      invariant !kb.abort
      invariant var w := Sweep(s.biases[i..], dgt.blocks, Flags(kb.pending), s);
                total == w.(ops := done + w.ops)
      invariant dgt.log.ops == start + done
    {
      ghost var rest := s.biases[i..];
      ghost var d := Drain(dgt.blocks, Flags(kb.pending), 0, s.maxEvents);
      SweepStep(rest, dgt.blocks, Flags(kb.pending), s);
      assert rest[0] == s.biases[i] && rest[1..] == s.biases[i + 1..];
      ghost var before := done;
      ghost var here := BiasOps(s.biases[i], d, s);
      stop := RunBias(dgt, hv, kb, s, s.biases[i]);
      Appended(start, before, here);
      done := done + here;
      if stop != Filled {
        return;
      }
      ghost var later := Sweep(s.biases[i + 1..], dgt.blocks, Flags(kb.pending), s);
      Appended(before, here, later.ops);
    }
    assert s.biases[|s.biases|..] == [];
    return Filled;
  }

  /** Each bias opens its own data file, and the biases are taken in list
      order: the files opened are a prefix of the bias list, all of it when
      every drain filled. */
  lemma {:induction false} SweepFiles(biases: seq<int>, blocks: seq<seq<Frame>>, checks: seq<bool>, s: Settings)
    ensures var f := Picked(Sweep(biases, blocks, checks, s).ops, OpenedFile);
            && |f| <= |biases| && f == biases[..|f|]
            && (Sweep(biases, blocks, checks, s).stop == Filled ==> f == biases)
    decreases |biases|
  {
    if biases != [] {
      var d := Drain(blocks, checks, 0, s.maxEvents);
      var here := BiasOps(biases[0], d, s);
      DrainOps(blocks, checks, 0, s.maxEvents);
      BiasFiles(biases[0], d, s);
      if d.stop == Filled {
        var rest := Sweep(biases[1..], d.blocks, d.checks, s);
        SweepFiles(biases[1..], d.blocks, d.checks, s);
        PickedAppend(here, rest.ops, OpenedFile);
        var f := Picked(rest.ops, OpenedFile);
        assert [biases[0]] + biases[1..][..|f|] == biases[..|f| + 1];
        assert rest.stop == Filled ==> [biases[0]] + biases[1..] == biases;
      }
    }
  }

  /** One bias opens exactly its own file. */
  lemma BiasFiles(bias: int, d: Drained, s: Settings)
    requires forall op :: op in d.ops ==> op == ReadData || op.Save?
    ensures Picked(BiasOps(bias, d, s), OpenedFile) == [bias]
  {
    var tail := d.ops + Closing(d.stop, s);
    UnopenedFiles(tail);
    Appended(Opening(bias, s), d.ops, Closing(d.stop, s));
    PickedAppend(Opening(bias, s), tail, OpenedFile);
    var o := Opening(bias, s);
    assert o[1..][1..][1..] == [];
    assert Picked(o[1..][1..], OpenedFile) == OpenedFile(StartAcquisition) + Picked([], OpenedFile) == [];
    assert Picked(o[1..], OpenedFile) == [bias];
  }

  /** A sweep is aborted only when some check found the flag set. */
  lemma {:induction false} SweepAbort(biases: seq<int>, blocks: seq<seq<Frame>>, checks: seq<bool>, s: Settings)
    requires Sweep(biases, blocks, checks, s).stop == Aborted
    ensures exists k :: 0 <= k < |checks| && checks[k]
    decreases |biases|
  {
    assert biases != [];
    SweepStep(biases, blocks, checks, s);
    var d := Drain(blocks, checks, 0, s.maxEvents);
    if d.stop == Filled {
      SweepAbort(biases[1..], d.blocks, d.checks, s);
      DrainChecks(blocks, checks, 0, s.maxEvents);
      FlagInSuffix(checks, d.checks);
    } else {
      DrainAbort(blocks, checks, 0, s.maxEvents);
    }
  }

  /** A set flag among the later checks is a set flag among all of them. */
  lemma FlagInSuffix(checks: seq<bool>, later: seq<bool>)
    requires |later| <= |checks| && later == checks[|checks| - |later|..]
    requires exists k :: 0 <= k < |later| && later[k]
    ensures exists k :: 0 <= k < |checks| && checks[k]
  {
    var k :| 0 <= k < |later| && later[k];
    assert checks[|checks| - |later| + k] == later[k];
  }

  /** An aborted sweep ends with the stop and then the cleanup calls. */
  lemma {:induction false} SweepAbortEnd(biases: seq<int>, blocks: seq<seq<Frame>>, checks: seq<bool>, s: Settings)
    ensures var w := Sweep(biases, blocks, checks, s);
            var tail := [StopAcquisition] + CleanupOps(s);
            w.stop == Aborted ==> |w.ops| >= |tail| && w.ops[|w.ops| - |tail|..] == tail
    decreases |biases|
  {
    if biases != [] {
      var d := Drain(blocks, checks, 0, s.maxEvents);
      var tail := [StopAcquisition] + CleanupOps(s);
      var here := BiasOps(biases[0], d, s);
      if d.stop == Filled {
        var rest := Sweep(biases[1..], d.blocks, d.checks, s);
        SweepAbortEnd(biases[1..], d.blocks, d.checks, s);
        if rest.stop == Aborted {
          EndsWith(here, rest.ops, tail);
        }
      } else if d.stop == Aborted {
        assert here == Opening(biases[0], s) + d.ops + tail;
        assert tail[|tail| - |tail|..] == tail;
        EndsWith(Opening(biases[0], s) + d.ops, tail, tail);
      }
    }
  }

  /** The setup calls of `init` when every gate passes. */
  function SetupOps(s: Settings): seq<Op> {
    [SupplyOpen(s.supplyId), DigitizerOpen(s.digitizerId), Reset, GetInfo]
    + ProgramOps(s) + [GetStatus, AllocateEvent, MallocBuffer]
  }

  /** The calls `init` makes when every gate passes. */
  lemma SetupOpsParts(s: Settings)
    ensures [SupplyOpen(s.supplyId), DigitizerOpen(s.digitizerId), Reset, GetInfo]
            + ProgramOps(s) + [GetStatus] + [AllocateEvent, MallocBuffer] == SetupOps(s)
  {
  }

  /** The script's main block: `init`, the keyboard listener when
      ENABLE_KEYBOARD is set (otherwise no key ever reaches the flag), then
      `start`, then `cleanup` once every bias is done. `keys` holds the keys
      pressed during each drain pass. The outcome is `Exited` when a setup
      gate fails, and otherwise how the sweep ended: after an abort the
      script has run its cleanup and exited. */
  method Session(log: Log, s: Settings, supplyConnected: bool, supplyModel: Option<string>,
                 model: string, status: int, blocks: seq<seq<Frame>>, keys: seq<seq<Key>>)
    returns (o: Outcome<Stop>)
    modifies log
    ensures var ready := supplyConnected && supplyModel.Some? && supplyModel.value in SupplyModels
                         && model in DigitizerModels && status == ReadyStatus;
            var w := Sweep(s.biases, blocks, Flags(if s.keyboard then keys else []), s);
            && (o == Exited <==> !ready)
            && (ready ==>
                  && o == Done(w.stop)
                  && log.ops == old(log.ops) + SetupOps(s) + IntroOps(s) + w.ops
                                + (if w.stop == Filled then CleanupOps(s) else []))
    ensures !s.keyboard ==> o != Done(Aborted)
    ensures o == Done(Filled) || o == Done(Aborted) ==>
              |log.ops| >= |CleanupOps(s)| && log.ops[|log.ops| - |CleanupOps(s)|..] == CleanupOps(s)
  {
    var init := Init(log, s, supplyConnected, supplyModel, model, status, blocks);
    if !init.Done? {
      return Exited;
    }
    var (dgt, hv) := init.value;
    ghost var setup := log.ops;
    SetupOpsParts(s);
    assert setup == old(log.ops) + SetupOps(s);
    ghost var checks := Flags(if s.keyboard then keys else []);
    ghost var w := Sweep(s.biases, blocks, checks, s);
    var stop := Operate(dgt, hv, s, if s.keyboard then keys else []);
    if !s.keyboard {
      Unabortable(s.biases, blocks, s);
    }
    Appended(old(log.ops) + SetupOps(s), IntroOps(s), w.ops);
    SessionEnd(setup + IntroOps(s) + w.ops, s.biases, blocks, checks, s);
    return Done(stop);
  }

  /** The part of the main block after `init`: the sweep with the keys
      `pending` delivers, then the cleanup when the sweep filled. */
  method Operate(dgt: Digitizer, hv: Supply, s: Settings, pending: seq<seq<Key>>) returns (stop: Stop)
    requires dgt.log == hv.log
    modifies dgt, dgt.log
    ensures var w := Sweep(s.biases, old(dgt.blocks), Flags(pending), s);
            && stop == w.stop
            && dgt.log.ops == old(dgt.log.ops) + IntroOps(s) + w.ops
                              + (if w.stop == Filled then CleanupOps(s) else [])
  {
    var kb := new Keyboard(pending);
    stop := Start(dgt, hv, kb, s);
    if stop == Filled {
      Cleanup(dgt, hv, s);
    }
  }

  /** After a sweep that filled, and the cleanup after it, or after one
      that was aborted, the last calls of the session are the cleanup's. */
  lemma SessionEnd(before: seq<Op>, biases: seq<int>, blocks: seq<seq<Frame>>, checks: seq<bool>, s: Settings)
    requires var w := Sweep(biases, blocks, checks, s);
             |before| >= |w.ops| && before[|before| - |w.ops|..] == w.ops
    ensures var w := Sweep(biases, blocks, checks, s);
            var ops := before + (if w.stop == Filled then CleanupOps(s) else []);
            w.stop == Filled || w.stop == Aborted ==>
              |ops| >= |CleanupOps(s)| && ops[|ops| - |CleanupOps(s)|..] == CleanupOps(s)
  {
    SweepAbortEnd(biases, blocks, checks, s);
    CleanupLast(before, Sweep(biases, blocks, checks, s), s);
  }

  /** The step of `SessionEnd` for any sweep result whose abort ends with
      the stop and the cleanup calls. */
  lemma CleanupLast(before: seq<Op>, w: Swept, s: Settings)
    requires |before| >= |w.ops| && before[|before| - |w.ops|..] == w.ops
    requires var tail := [StopAcquisition] + CleanupOps(s);
             w.stop == Aborted ==> |w.ops| >= |tail| && w.ops[|w.ops| - |tail|..] == tail
    ensures var ops := before + (if w.stop == Filled then CleanupOps(s) else []);
            w.stop == Filled || w.stop == Aborted ==>
              |ops| >= |CleanupOps(s)| && ops[|ops| - |CleanupOps(s)|..] == CleanupOps(s)
  {
    var ops := before + (if w.stop == Filled then CleanupOps(s) else []);
    if w.stop == Filled {
      assert ops[|ops| - |CleanupOps(s)|..] == CleanupOps(s);
    } else if w.stop == Aborted {
      var tail := [StopAcquisition] + CleanupOps(s);
      assert ops == before;
      assert ops[|ops| - |tail|..] == w.ops[|w.ops| - |tail|..];
      assert ops[|ops| - |CleanupOps(s)|..] == tail[1..];
    }
  }

  /** Without the keyboard listener a sweep is never aborted. */
  lemma Unabortable(biases: seq<int>, blocks: seq<seq<Frame>>, s: Settings)
    ensures Sweep(biases, blocks, Flags([]), s).stop != Aborted
  {
    if Sweep(biases, blocks, Flags([]), s).stop == Aborted {
      SweepAbort(biases, blocks, Flags([]), s);
    }
  }

  /** A sweep is aborted only if `q` was among the keys pressed during one
      of its passes. */
  lemma SweepQuit(biases: seq<int>, blocks: seq<seq<Frame>>, keys: seq<seq<Key>>, s: Settings)
    requires Sweep(biases, blocks, Flags(keys), s).stop == Aborted
    ensures exists k :: 0 <= k < |keys| && Quits(keys[k])
  {
    SweepAbort(biases, blocks, Flags(keys), s);
  }
}
