/** The text protocol of the CAEN DT1471ET high-voltage supply as the
    `HighVoltage` wrapper speaks it: command frames, the `ERR` check, the value
    field of a reply, the confirm loop of `setVoltage`, the REMOTE wait of the
    constructor and the interactive choice of a VISA resource.

    The instrument is a `Link` that answers each query from a script of
    replies and records every frame it was sent. */
module HighVoltage {
  import opened Base
  import opened Text

  /** A readback within this many volts of the target confirms a setpoint. */
  const AllowedVoltageDelta: real := 1.5

  // ------------------------------------------------------------------ frames

  /** `$BD:<board>,CMD:SET,CH:<channel>,PAR:<param>`, followed by
      `,VAL:<value>` only when a value is given. */
  function SetFrame(board: string, channel: string, param: string, value: Option<string>): string
  {
    "$BD:" + board + "," + "CMD:SET" + "," + "CH:" + channel + "," + "PAR:" + param
      + (if value.Some? then "," + "VAL:" + value.value else "")
  }

  /** `$BD:<board>,CMD:MON,PAR:<param>`, with `CH:<channel>,` before `PAR`
      only when a channel is given. */
  function MonFrame(board: string, param: string, channel: Option<string>): string
  {
    if channel.None? then "$BD:" + board + "," + "CMD:MON" + "," + "PAR:" + param
    else "$BD:" + board + "," + "CMD:MON" + "," + "CH:" + channel.value + "," + "PAR:" + param
  }

  /** A command as the instrument reads it back out of a frame. */
  datatype Command = Command(board: string, cmd: string, channel: Option<string>,
                             param: string, value: Option<string>)

  /** A `key:value` field split at its first colon. */
  function Field(f: string): (string, string)
  {
    var parts := Split(f, ':');
    (parts[0], Join(parts[1..], ':'))
  }

  function Fields(parts: seq<string>): (fs: seq<(string, string)>)
    ensures |fs| == |parts|
    ensures forall i :: 0 <= i < |parts| ==> fs[i] == Field(parts[i])
  {
    if parts == [] then [] else [Field(parts[0])] + Fields(parts[1..])
  }

  /** The instrument's reading of a frame: `$BD`, `CMD`, an optional `CH`,
      `PAR` and an optional `VAL`, in that order and nothing else. */
  function DecodeFrame(frame: string): Option<Command>
  {
    DecodeFields(Fields(Split(frame, ',')))
  }

  function DecodeFields(fs: seq<(string, string)>): Option<Command>
  {
    if |fs| < 3 || fs[0].0 != "$BD" || fs[1].0 != "CMD" then None
    else
      var channel := if fs[2].0 == "CH" then Some(fs[2].1) else None;
      var rest := if fs[2].0 == "CH" then fs[3..] else fs[2..];
      if |rest| == 0 || rest[0].0 != "PAR" then None
      else if |rest| == 1 then Some(Command(fs[0].1, fs[1].1, channel, rest[0].1, None))
      else if |rest| == 2 && rest[1].0 == "VAL" then
        Some(Command(fs[0].1, fs[1].1, channel, rest[0].1, Some(rest[1].1)))
      else None
  }

  /** The text of a field is free of separators. */
  predicate Plain(s: string) {
    ',' !in s
  }

  lemma FieldOf(k: string, v: string)
    requires ':' !in k
    ensures Field(k + ":" + v) == (k, v)
  {
    SplitPrefix(k, ":" + v, ':');
    assert k + ":" + v == k + (":" + v);
    assert (":" + v)[1..] == v;
    var parts := Split(k + ":" + v, ':');
    assert parts[0] == k + "" == k;
    assert parts[1..] == Split(v, ':');
    JoinSplit(v, ':');
  }

  lemma JoinThree(a: string, b: string, c: string)
    ensures Join([a, b, c], ',') == a + "," + b + "," + c
  {
    assert [a, b, c][1..] == [b, c];
    assert [b, c][1..] == [c];
    assert Join([c], ',') == c;
    assert Join([b, c], ',') == b + "," + c;
  }

  lemma JoinFour(a: string, b: string, c: string, d: string)
    ensures Join([a, b, c, d], ',') == a + "," + b + "," + c + "," + d
  {
    assert [a, b, c, d][1..] == [b, c, d];
    JoinThree(b, c, d);
  }

  lemma JoinFive(a: string, b: string, c: string, d: string, e: string)
    ensures Join([a, b, c, d, e], ',') == a + "," + b + "," + c + "," + d + "," + e
  {
    assert [a, b, c, d, e][1..] == [b, c, d, e];
    JoinFour(b, c, d, e);
  }

  /** The fields of a SET frame, key and text. */
  function SetFields(board: string, channel: string, param: string, value: Option<string>): seq<(string, string)>
  {
    [("$BD", board), ("CMD", "SET"), ("CH", channel), ("PAR", param)]
      + (if value.Some? then [("VAL", value.value)] else [])
  }

  /** The fields of a MON frame, key and text. */
  function MonFields(board: string, param: string, channel: Option<string>): seq<(string, string)>
  {
    [("$BD", board), ("CMD", "MON")]
      + (if channel.Some? then [("CH", channel.value)] else [])
      + [("PAR", param)]
  }

  /** `key:text` for each field. */
  function Texts(fs: seq<(string, string)>): (parts: seq<string>)
    ensures |parts| == |fs|
    ensures forall i :: 0 <= i < |fs| ==> parts[i] == fs[i].0 + ":" + fs[i].1
  {
    if fs == [] then [] else [fs[0].0 + ":" + fs[0].1] + Texts(fs[1..])
  }

  /** Frames whose keys are colon-free and whose texts are comma-free decode
      field by field. */
  lemma FieldsOfTexts(fs: seq<(string, string)>)
    requires |fs| >= 1
    requires forall i :: 0 <= i < |fs| ==> ':' !in fs[i].0 && ',' !in fs[i].0 && Plain(fs[i].1)
    ensures Fields(Split(Join(Texts(fs), ','), ',')) == fs
  {
    var parts := Texts(fs);
    TextsSplit(fs);
    assert Split(Join(parts, ','), ',') == parts by {
      SplitJoin(parts, ',');
    }
    assert Fields(parts) == fs;
  }

  /** Each text of such a frame is comma-free and decodes to its field. */
  lemma TextsSplit(fs: seq<(string, string)>)
    requires forall i :: 0 <= i < |fs| ==> ':' !in fs[i].0 && ',' !in fs[i].0 && Plain(fs[i].1)
    ensures forall i :: 0 <= i < |fs| ==> ',' !in Texts(fs)[i] && Field(Texts(fs)[i]) == fs[i]
  {
    var parts := Texts(fs);
    forall i | 0 <= i < |parts|
      ensures ',' !in parts[i] && Field(parts[i]) == fs[i]
    {
      FieldOf(fs[i].0, fs[i].1);
    }
  }

  lemma SetFrameTexts(board: string, channel: string, param: string, value: Option<string>)
    ensures SetFrame(board, channel, param, value) == Join(Texts(SetFields(board, channel, param, value)), ',')
  {
    var a, b, c, d := "$BD:" + board, "CMD:SET", "CH:" + channel, "PAR:" + param;
    var parts := Texts(SetFields(board, channel, param, value));
    SetTexts(board, channel, param, value);
    if value.Some? {
      var e := "VAL:" + value.value;
      assert parts == [a, b, c, d] + [e] == [a, b, c, d, e];
      JoinFive(a, b, c, d, e);
    } else {
      assert parts == [a, b, c, d] + [] == [a, b, c, d];
      JoinFour(a, b, c, d);
    }
  }

  /** The texts of the fields of a SET frame, one per field. */
  lemma SetTexts(board: string, channel: string, param: string, value: Option<string>)
    ensures Texts(SetFields(board, channel, param, value))
            == ["$BD:" + board, "CMD:SET", "CH:" + channel, "PAR:" + param]
               + (if value.Some? then ["VAL:" + value.value] else [])
  {
    var fs := SetFields(board, channel, param, value);
    var parts := Texts(fs);
    assert |parts| == |fs| == if value.Some? then 5 else 4;
    assert parts[0] == "$BD:" + board;
    assert parts[1] == "CMD:SET";
    assert parts[2] == "CH:" + channel;
    assert parts[3] == "PAR:" + param;
    if value.Some? {
      assert fs[4] == ("VAL", value.value);
      assert parts[4] == "VAL:" + value.value;
    }
  }

  lemma MonFrameTexts(board: string, param: string, channel: Option<string>)
    ensures MonFrame(board, param, channel) == Join(Texts(MonFields(board, param, channel)), ',')
  {
    var fs := MonFields(board, param, channel);
    var parts := Texts(fs);
    assert |parts| == |fs| == if channel.Some? then 4 else 3;
    assert parts[0] == "$BD:" + board;
    assert parts[1] == "CMD:MON";
    if channel.Some? {
      assert fs[2] == ("CH", channel.value) && fs[3] == ("PAR", param);
      assert parts[2] == "CH:" + channel.value && parts[3] == "PAR:" + param;
      assert parts == [parts[0], parts[1], parts[2], parts[3]];
      JoinFour(parts[0], parts[1], parts[2], parts[3]);
    } else {
      assert fs[2] == ("PAR", param);
      assert parts[2] == "PAR:" + param;
      assert parts == [parts[0], parts[1], parts[2]];
      JoinThree(parts[0], parts[1], parts[2]);
    }
  }

  /** A SET frame carries exactly the board, channel, parameter and value it
      was built from, provided none of them contains a comma. */
  lemma DecodeSetFrame(board: string, channel: string, param: string, value: Option<string>)
    requires Plain(board) && Plain(channel) && Plain(param)
    requires value.Some? ==> Plain(value.value)
    ensures DecodeFrame(SetFrame(board, channel, param, value))
            == Some(Command(board, "SET", Some(channel), param, value))
  {
    var fs := SetFields(board, channel, param, value);
    SetFrameTexts(board, channel, param, value);
    FieldsOfTexts(fs);
    SetFieldsDecode(board, channel, param, value);
  }

  lemma SetFieldsDecode(board: string, channel: string, param: string, value: Option<string>)
    ensures DecodeFields(SetFields(board, channel, param, value))
            == Some(Command(board, "SET", Some(channel), param, value))
  {
    var fs := SetFields(board, channel, param, value);
    assert fs[..4] == [("$BD", board), ("CMD", "SET"), ("CH", channel), ("PAR", param)];
    assert fs[3..] == [("PAR", param)] + (if value.Some? then [("VAL", value.value)] else []);
  }

  /** A MON frame carries exactly the board, parameter and optional channel it
      was built from, provided none of them contains a comma. */
  lemma DecodeMonFrame(board: string, param: string, channel: Option<string>)
    requires Plain(board) && Plain(param)
    requires channel.Some? ==> Plain(channel.value)
    ensures DecodeFrame(MonFrame(board, param, channel))
            == Some(Command(board, "MON", channel, param, None))
  {
    var fs := MonFields(board, param, channel);
    MonFrameTexts(board, param, channel);
    FieldsOfTexts(fs);
    MonFieldsDecode(board, param, channel);
  }

  lemma MonFieldsDecode(board: string, param: string, channel: Option<string>)
    ensures DecodeFields(MonFields(board, param, channel)) == Some(Command(board, "MON", channel, param, None))
  {
    var fs := MonFields(board, param, channel);
    if channel.Some? {
      assert fs == [("$BD", board), ("CMD", "MON"), ("CH", channel.value), ("PAR", param)];
      assert fs[3..] == [("PAR", param)];
    } else {
      assert fs == [("$BD", board), ("CMD", "MON"), ("PAR", param)];
      assert fs[2..] == [("PAR", param)];
    }
  }

  // ----------------------------------------------------------------- replies

  /** `check(msg)`: a reply is trusted unless `ERR` occurs anywhere in it. */
  function Check(msg: string): (ok: bool)
    ensures ok <==> forall i :: !OccursAt(msg, "ERR", i)
  {
    !Contains(msg, "ERR")
  }

  lemma CheckRejectsErr(before: string, after: string)
    ensures !Check(before + "ERR" + after)
  {
    var s := before + "ERR" + after;
    assert s[|before|..|before| + 3] == "ERR";
    assert OccursAt(s, "ERR", |before|);
  }

  /** What `getQuery` returns for a reply: `None` when the check fails,
      otherwise the text between the first and the second colon of the third
      comma-separated field, right-stripped; IndexError when there is no
      third field or it has no colon. */
  function QueryResult(reply: string): Result<Option<string>>
  {
    if !Check(reply) then Ok(None)
    else
      var fields := Split(reply, ',');
      if |fields| < 3 then Raised(IndexError)
      else
        var pieces := Split(fields[2], ':');
        if |pieces| < 2 then Raised(IndexError)
        else Ok(Some(RStrip(pieces[1])))
  }

  /** A reply whose third field is `<key>:<text>` yields `text` with trailing
      whitespace removed; a reply containing ERR yields nothing. */
  lemma {:induction false} QueryResultOfReply(fields: seq<string>, key: string, text: string)
    requires |fields| >= 3 && fields[2] == key + ":" + text
    requires forall i :: 0 <= i < |fields| ==> Plain(fields[i])
    requires ':' !in key && ':' !in text
    ensures Check(Join(fields, ',')) ==> QueryResult(Join(fields, ',')) == Ok(Some(RStrip(text)))
    ensures !Check(Join(fields, ',')) ==> QueryResult(Join(fields, ',')) == Ok(None)
  {
    SplitJoin(fields, ',');
    SplitPrefix(key, ":" + text, ':');
    assert key + ":" + text == key + (":" + text);
    assert (":" + text)[1..] == text;
    SplitPrefix(text, "", ':');
    assert text + "" == text;
    assert Split(fields[2], ':')[1] == Split(text, ':')[0] == text;
  }

  /** The value of a reading: `float(getQuery(...))`. A reply with ERR makes
      getQuery return None and float(None) raises TypeError; text that is not a
      decimal number raises ValueError. */
  function Reading(reply: string): Result<real>
  {
    match QueryResult(reply)
    case Raised(f) => Raised(f)
    case Ok(None) => Raised(TypeError)
    case Ok(Some(text)) =>
      match ParseReal(text)
      case Some(v) => Ok(v)
      case None => Raised(ValueError)
  }

  // ------------------------------------------------------------ polling loops

  /** A `while True` loop that reads one reply per pass and stops at the first
      reply `judge` accepts: the outcome and how many replies it consumed. An
      exception in `judge` ends the loop; running out of replies leaves it
      waiting. */
  function PollUntil(replies: seq<string>, judge: string -> Result<bool>): (r: (Outcome<()>, nat))
    ensures r.1 <= |replies| && r.0 != Exited
    ensures r.0 == Waiting ==> r.1 == |replies|
  {
    if replies == [] then (Waiting, 0)
    else match judge(replies[0])
      case Raised(f) => (Failed(f), 1)
      case Ok(true) => (Done(()), 1)
      case Ok(false) =>
        var r := PollUntil(replies[1..], judge);
        (r.0, r.1 + 1)
  }

  /** The loop is left waiting exactly when every reply it was given was
      rejected. */
  lemma {:induction false} PollUntilWaiting(replies: seq<string>, judge: string -> Result<bool>)
    ensures PollUntil(replies, judge).0 == Waiting <==> forall i :: 0 <= i < |replies| ==> judge(replies[i]) == Ok(false)
  {
    if replies != [] {
      PollUntilWaiting(replies[1..], judge);
      assert forall i :: 1 <= i < |replies| ==> replies[1..][i - 1] == replies[i];
    }
  }

  /** One pass of the polling loop. */
  lemma PollStep(replies: seq<string>, judge: string -> Result<bool>)
    requires replies != []
    ensures judge(replies[0]).Raised? ==> PollUntil(replies, judge) == (Failed(judge(replies[0]).fault), 1)
    ensures judge(replies[0]) == Ok(true) ==> PollUntil(replies, judge) == (Done(()), 1)
    ensures judge(replies[0]) == Ok(false) ==>
              && PollUntil(replies, judge).0 == PollUntil(replies[1..], judge).0
              && PollUntil(replies, judge).1 == PollUntil(replies[1..], judge).1 + 1
  {
  }

  /** Reply `k` is the first one `judge` accepts, and every earlier one was
      judged without an exception. */
  ghost predicate FirstAccepted(replies: seq<string>, judge: string -> Result<bool>, k: int)
  {
    && 0 <= k < |replies|
    && judge(replies[k]) == Ok(true)
    && forall i :: 0 <= i < k ==> judge(replies[i]) == Ok(false)
  }

  /** The loop succeeds exactly when some reply is accepted before any raises,
      and then it has consumed that reply and no more. */
  lemma {:induction false} PollUntilDone(replies: seq<string>, judge: string -> Result<bool>)
    ensures PollUntil(replies, judge).0 == Done(()) <==> exists k :: FirstAccepted(replies, judge, k)
    ensures forall k :: FirstAccepted(replies, judge, k) ==> PollUntil(replies, judge).1 == k + 1
  {
    if replies != [] {
      var tail := replies[1..];
      PollUntilDone(tail, judge);
      assert forall i :: 1 <= i < |replies| ==> tail[i - 1] == replies[i];
      forall k | FirstAccepted(replies, judge, k) && k > 0
        ensures FirstAccepted(tail, judge, k - 1)
      {
      }
      if judge(replies[0]) == Ok(false) && PollUntil(replies, judge).0 == Done(()) {
        var k :| FirstAccepted(tail, judge, k);
        assert FirstAccepted(replies, judge, k + 1);
      }
      if judge(replies[0]) == Ok(true) {
        assert FirstAccepted(replies, judge, 0);
      }
    }
  }

  /** The confirm test of `setVoltage`: a reading within 1.5 V of the target. */
  function Settled(target: int): string -> Result<bool>
  {
    reply =>
      match Reading(reply)
      case Raised(f) => Raised(f)
      case Ok(v) => Ok(-AllowedVoltageDelta < v - target as real < AllowedVoltageDelta)
  }

  /** The REMOTE test of the constructor: `"REMOTE" not in status`, where a
      status of None raises TypeError. */
  function InRemote(reply: string): Result<bool>
  {
    match QueryResult(reply)
    case Raised(f) => Raised(f)
    case Ok(None) => Raised(TypeError)
    case Ok(Some(status)) => Ok(Contains(status, "REMOTE"))
  }

  /** `setVoltage(..., confirm=True)` returns only after a readback within
      1.5 V of the target, all earlier readbacks having been outside. */
  lemma ConfirmedReadback(replies: seq<string>, target: int)
    requires PollUntil(replies, Settled(target)).0 == Done(())
    ensures exists k :: && 0 <= k < |replies|
                        && Reading(replies[k]).Ok?
                        && -AllowedVoltageDelta < Reading(replies[k]).value - target as real < AllowedVoltageDelta
                        && PollUntil(replies, Settled(target)).1 == k + 1
  {
    var judge := Settled(target);
    PollUntilDone(replies, judge);
    var k :| FirstAccepted(replies, judge, k);
    var reading := Reading(replies[k]);
    assert judge(replies[k]) == Ok(true);
    assert reading.Ok? && -AllowedVoltageDelta < reading.value - target as real < AllowedVoltageDelta;
    assert PollUntil(replies, judge).1 == k + 1;
  }

  // ------------------------------------------------------- resource selection

  /** `isValidResource`: a string of digits naming an index below `num`. */
  predicate IsValidResource(selected: string, num: int)
  {
    IsDigits(selected) && DigitsValue(selected) < num
  }

  /** An answer is accepted exactly when it is all digits and `int` of it is
      an index into the list: `int` reads a digit string as its value, so a
      sign, a space or any other character makes the answer invalid. */
  lemma ValidResourceNames(selected: string, num: int)
    ensures IsValidResource(selected, num)
            <==> IsDigits(selected) && ParseInt(selected).Some? && 0 <= ParseInt(selected).value < num
    ensures IsDigits(selected) ==> ParseInt(selected) == Some(DigitsValue(selected))
  {
    if IsDigits(selected) {
      TrimUntouched(selected, IsSpace);
    }
  }

  /** The canonical names accepted are the decimal names of 0 .. num-1. */
  lemma DecimalResourceNames(n: int, num: int)
    ensures IsValidResource(Decimal(n), num) <==> 0 <= n < num
  {
    if n >= 0 {
      NatDigitsValue(n);
    } else {
      assert Decimal(n)[0] == '-';
    }
  }

  /** The resource the operator settles on: none when there is no resource
      (the program exits), else the one named by the first valid answer;
      still waiting when every answer given is invalid. */
  function Prompted(resources: seq<string>, answers: seq<string>): Outcome<string>
  {
    if |resources| == 0 then Exited
    else if answers == [] then Waiting
    else if IsValidResource(answers[0], |resources|) then Done(resources[DigitsValue(answers[0])])
    else Prompted(resources, answers[1..])
  }

  /** `promptResource`: exits when there is no resource; otherwise asks until
      an answer is valid and returns the resource it names. The answers are
      the operator's input lines, in order. */
  method PromptResource(resources: seq<string>, answers: seq<string>) returns (o: Outcome<string>)
    ensures o == Prompted(resources, answers)
    ensures |resources| == 0 ==> o == Exited
    ensures |resources| > 0 ==> o.Done? || o == Waiting
    ensures o == Waiting ==> forall i :: 0 <= i < |answers| ==> !IsValidResource(answers[i], |resources|)
    ensures o.Done? ==> exists k :: && 0 <= k < |answers|
                                   && IsValidResource(answers[k], |resources|)
                                   && (forall i :: 0 <= i < k ==> !IsValidResource(answers[i], |resources|))
                                   && o.value == resources[DigitsValue(answers[k])]
  {
    var num := |resources|;
    if num == 0 {
      return Exited;
    }
    var i := 0;
    while i < |answers|
      invariant 0 <= i <= |answers|
      invariant forall j :: 0 <= j < i ==> !IsValidResource(answers[j], num)
      invariant Prompted(resources, answers) == Prompted(resources, answers[i..])
    {
      var selected := answers[i];
      assert answers[i..][1..] == answers[i + 1..];
      if IsValidResource(selected, num) {
        return Done(resources[DigitsValue(selected)]);
      }
      i := i + 1;
    }
    return Waiting;
  }

  /** `list_resources()[resource]` with Python's negative indexing. */
  function PickResource(resources: seq<string>, index: int): (r: Result<string>)
    ensures r.Ok? <==> -|resources| <= index < |resources|
    ensures 0 <= index < |resources| ==> r == Ok(resources[index])
    ensures -|resources| <= index < 0 ==> r == Ok(resources[|resources| + index])
  {
    if 0 <= index < |resources| then Ok(resources[index])
    else if -|resources| <= index < 0 then Ok(resources[|resources| + index])
    else Raised(IndexError)
  }

  /** The resource the constructor opens: the operator's choice when no
      index is given, else `list_resources()[resource]`. */
  function Chosen(resource: Option<int>, resources: seq<string>, answers: seq<string>): Outcome<string>
  {
    if resource.None? then Prompted(resources, answers)
    else
      match PickResource(resources, resource.value)
      case Ok(name) => Done(name)
      case Raised(f) => Failed(f)
  }

  /** How the constructor ends on a session whose replies are `replies`:
      BDCTR is polled until its value contains REMOTE, then BDNAME is read
      into the model. */
  function Handshake(replies: seq<string>): (Outcome<()>, Option<string>)
  {
    var poll := PollUntil(replies, InRemote);
    if poll.0 != Done(()) then (poll.0, None)
    else if poll.1 == |replies| then (Waiting, None)
    else
      match QueryResult(replies[poll.1])
      case Ok(name) => (Done(()), name)
      case Raised(f) => (Failed(f), None)
  }

  /** A session is ready only after a BDCTR reply containing REMOTE, every
      earlier one lacking it; the model is the value of the reply after it. */
  lemma HandshakeDone(replies: seq<string>)
    requires Handshake(replies).0 == Done(())
    ensures exists k :: && 0 <= k < |replies| - 1
                        && InRemote(replies[k]) == Ok(true)
                        && (forall i :: 0 <= i < k ==> InRemote(replies[i]) == Ok(false))
                        && QueryResult(replies[k + 1]) == Ok(Handshake(replies).1)
  {
    PollUntilDone(replies, InRemote);
    var k :| FirstAccepted(replies, InRemote, k);
    assert QueryResult(replies[k + 1]) == Ok(Handshake(replies).1);
  }

  // --------------------------------------------------------------- the device

  /** An open VISA session: answers each query with the next scripted reply
      and records every frame it was sent. */
  class Link {
    var replies: seq<string>
    ghost var sent: seq<string>

    constructor (replies: seq<string>)
      ensures this.replies == replies && sent == []
    {
      this.replies := replies;
      sent := [];
    }

    /** `handle.query(cmd)`; `None` once the script has no further reply. */
    method Query(cmd: string) returns (reply: Option<string>)
      modifies this
      ensures sent == old(sent) + [cmd]
      ensures old(replies) == [] ==> reply == None && replies == []
      ensures old(replies) != [] ==> reply == Some(old(replies)[0]) && replies == old(replies)[1..]
    {
      sent := sent + [cmd];
      if replies == [] {
        reply := None;
      } else {
        reply := Some(replies[0]);
        replies := replies[1..];
      }
    }
  }

  /** `n` copies of one frame. */
  function Repeat(frame: string, n: nat): (s: seq<string>)
    ensures |s| == n
  {
    if n == 0 then [] else Repeat(frame, n - 1) + [frame]
  }

  /** The `HighVoltage` wrapper object. */
  class HighVoltage {
    const board: int
    var connected: bool
    var handle: Link?
    /** `self.model`, the BDNAME reply value (None when that reply had ERR). */
    var model: Option<string>
    /** How the constructor ended. */
    var status: Outcome<()>

    function Board(): string {
      Decimal(board)
    }

    /** `HighVoltage(board, resource)`: picks a resource (by index, or by
        asking the operator), opens it (`devices` maps each resource that can
        be opened to its session), waits until the supply reports REMOTE
        control and then reads its model name. */
    constructor (board: int, resource: Option<int>, resources: seq<string>,
                 answers: seq<string>, devices: map<string, Link>)
      modifies devices.Values
      ensures this.board == board
      ensures connected <==> handle != null
      ensures var picked := Chosen(resource, resources, answers);
              && (connected <==> picked.Done? && picked.value in devices)
              && (connected ==> handle == devices[picked.value]
                                && (status, model) == Handshake(old(devices[picked.value].replies)))
              && (picked.Done? && picked.value !in devices ==> status == Done(()) && model == None)
              && (picked.Failed? ==> status == Failed(picked.fault) && model == None)
              && (picked == Exited ==> status == Exited && model == None)
              && (picked == Waiting ==> status == Waiting && model == None)
      ensures forall d :: d in devices.Values && d != handle ==> d.sent == old(d.sent) && d.replies == old(d.replies)
    {
      this.board := board;
      connected := false;
      handle := null;
      model := None;
      status := Waiting;
      var picked: Outcome<string>;
      if resource.None? {
        picked := PromptResource(resources, answers);
      } else {
        var r := PickResource(resources, resource.value);
        picked := if r.Ok? then Done(r.value) else Failed(r.fault);
      }
      new;
      match picked
      case Done(name) =>
        if name in devices {
          ghost var script := devices[name].replies;
          handle := devices[name];
          connected := true;
          AwaitRemote();
          assert (status, model) == Handshake(script) by {
            var poll := PollUntil(script, InRemote);
            assert model == None || status == Done(());
            if poll.0 == Waiting {
              assert status == Waiting;
              assert Handshake(script) == (Waiting, None);
              assert model == None;
            } else if poll.0.Failed? {
              assert status == poll.0;
              assert Handshake(script) == (poll.0, None);
              assert model == None;
            } else if poll.1 == |script| {
              assert poll.0.Done? && poll.0.value == ();
              assert status == Waiting;
              assert Handshake(script) == (Waiting, None);
            } else {
              assert poll.0.Done? && poll.0.value == ();
              match QueryResult(script[poll.1])
              case Ok(n) =>
                assert Handshake(script) == (Done(()), n);
              case Raised(f) =>
                assert Handshake(script) == (Failed(f), None);
            }
          }
        } else {
          // open_resource raised: the object stays unconnected
          status := Done(());
        }
      case Failed(f) =>
        status := Failed(f);
      case Exited =>
        status := Exited;
      case Waiting =>
        status := Waiting;
    }

    /** The constructor's `while True` loop and the BDNAME read after it. */
    method AwaitRemote()
      requires handle != null
      modifies this, handle
      ensures handle == old(handle) && connected == old(connected)
      ensures status != Done(()) ==> model == old(model)
      ensures var poll := PollUntil(old(handle.replies), InRemote);
              var polled := Repeat(MonFrame(Board(), "BDCTR", None), poll.1);
              && (poll.0 == Waiting ==> status == Waiting && handle.replies == []
                                        && handle.sent == old(handle.sent) + polled + [MonFrame(Board(), "BDCTR", None)])
              && (poll.0.Failed? ==> status == poll.0 && handle.sent == old(handle.sent) + polled
                                     && handle.replies == old(handle.replies)[poll.1..])
              && (poll.0 == Done(()) ==>
                    handle.sent == old(handle.sent) + polled + [MonFrame(Board(), "BDNAME", None)]
                    && (poll.1 == |old(handle.replies)| ==> status == Waiting && handle.replies == [])
                    && (poll.1 < |old(handle.replies)| ==>
                          handle.replies == old(handle.replies)[poll.1 + 1..]
                          && match QueryResult(old(handle.replies)[poll.1])
                             case Ok(name) => status == Done(()) && model == name
                             case Raised(f) => status == Failed(f)))
    {
      var remote := PollRemote();
      if remote != Done(()) {
        status := remote;
        return;
      }
      var name := GetQuery("BDNAME", None);
      if name.Done? {
        model := name.value;
        status := Done(());
      } else if name.Failed? {
        status := Failed(name.fault);
      } else {
        status := Waiting;
      }
    }

    /** Polls BDCTR until the status contains REMOTE; between polls the
        operator is asked to switch the supply to remote control. */
    method PollRemote() returns (o: Outcome<()>)
      requires handle != null
      modifies handle
      ensures var poll := PollUntil(old(handle.replies), InRemote);
              var extra := if poll.0 == Waiting then 1 else 0;
              && o == poll.0
              && handle.replies == old(handle.replies)[poll.1..]
              && handle.sent == old(handle.sent) + Repeat(MonFrame(Board(), "BDCTR", None), poll.1 + extra)
    {
      ghost var script := handle.replies;
      ghost var consumed := 0;
      ghost var bdctr := MonFrame(Board(), "BDCTR", None);
      while true
        invariant 0 <= consumed <= |script|
        invariant handle.replies == script[consumed..]
        invariant handle.sent == old(handle.sent) + Repeat(bdctr, consumed)
        invariant PollUntil(script, InRemote).0 == PollUntil(script[consumed..], InRemote).0
        invariant PollUntil(script, InRemote).1 == PollUntil(script[consumed..], InRemote).1 + consumed
        decreases |handle.replies|
      {
        var status := GetQuery("BDCTR", None);
        assert handle.sent == old(handle.sent) + Repeat(bdctr, consumed + 1) by {
          Appended(old(handle.sent), Repeat(bdctr, consumed), [bdctr]);
        }
        if status == Waiting {
          return Waiting;
        }
        assert script[consumed..][1..] == script[consumed + 1..];
        PollStep(script[consumed..], InRemote);
        consumed := consumed + 1;
        if status.Failed? {
          return Failed(status.fault);
        }
        if status.value.None? {
          return Failed(TypeError);
        }
        if Contains(status.value.value, "REMOTE") {
          return Done(());
        }
      }
    }

    /** `setQuery(param, channel, value)`: one SET frame; the reply is only
        checked for ERR, which is reported and otherwise ignored. */
    method SetQuery(param: string, channel: int, value: Option<int>) returns (o: Outcome<()>)
      requires handle != null
      modifies handle
      ensures handle.sent == old(handle.sent)
                + [SetFrame(Board(), Decimal(channel), param, if value.Some? then Some(Decimal(value.value)) else None)]
      ensures o == (if old(handle.replies) == [] then Waiting else Done(()))
      ensures handle.replies == if old(handle.replies) == [] then [] else old(handle.replies)[1..]
    {
      var text := if value.Some? then Some(Decimal(value.value)) else None;
      var reply := handle.Query(SetFrame(Board(), Decimal(channel), param, text));
      if reply.None? {
        return Waiting;
      }
      var _ := Check(reply.value);
      return Done(());
    }

    /** `getQuery(param, channel)`: one MON frame and the value of its reply. */
    method GetQuery(param: string, channel: Option<int>) returns (o: Outcome<Option<string>>)
      requires handle != null
      modifies handle
      ensures handle.sent == old(handle.sent)
                + [MonFrame(Board(), param, if channel.Some? then Some(Decimal(channel.value)) else None)]
      ensures handle.replies == if old(handle.replies) == [] then [] else old(handle.replies)[1..]
      ensures old(handle.replies) == [] ==> o == Waiting
      ensures old(handle.replies) != [] ==>
                match QueryResult(old(handle.replies)[0])
                case Ok(v) => o == Done(v)
                case Raised(f) => o == Failed(f)
    {
      var ch := if channel.Some? then Some(Decimal(channel.value)) else None;
      var reply := handle.Query(MonFrame(Board(), param, ch));
      if reply.None? {
        return Waiting;
      }
      var r := QueryResult(reply.value);
      o := if r.Ok? then Done(r.value) else Failed(r.fault);
    }

    /** `getVoltage(channel)`: `float(getQuery("VMON", channel))`. */
    method GetVoltage(channel: int) returns (o: Outcome<real>)
      requires handle != null
      modifies handle
      ensures handle.sent == old(handle.sent) + [MonFrame(Board(), "VMON", Some(Decimal(channel)))]
      ensures handle.replies == if old(handle.replies) == [] then [] else old(handle.replies)[1..]
      ensures old(handle.replies) == [] ==> o == Waiting
      ensures old(handle.replies) != [] ==>
                match Reading(old(handle.replies)[0])
                case Ok(v) => o == Done(v)
                case Raised(f) => o == Failed(f)
    {
      var reply := handle.Query(MonFrame(Board(), "VMON", Some(Decimal(channel))));
      if reply.None? {
        return Waiting;
      }
      var r := Reading(reply.value);
      o := if r.Ok? then Done(r.value) else Failed(r.fault);
    }

    /** `getCurrent(channel)`: `float(getQuery("IMON", channel))`. */
    method GetCurrent(channel: int) returns (o: Outcome<real>)
      requires handle != null
      modifies handle
      ensures handle.sent == old(handle.sent) + [MonFrame(Board(), "IMON", Some(Decimal(channel)))]
      ensures handle.replies == if old(handle.replies) == [] then [] else old(handle.replies)[1..]
      ensures old(handle.replies) == [] ==> o == Waiting
      ensures old(handle.replies) != [] ==>
                match Reading(old(handle.replies)[0])
                case Ok(v) => o == Done(v)
                case Raised(f) => o == Failed(f)
    {
      var reply := handle.Query(MonFrame(Board(), "IMON", Some(Decimal(channel))));
      if reply.None? {
        return Waiting;
      }
      var r := Reading(reply.value);
      o := if r.Ok? then Done(r.value) else Failed(r.fault);
    }

    /** `setVoltage(channel, value, confirm)`: one VSET frame; with `confirm`,
        VMON is read until a readback lies within 1.5 V of `value`. */
    method SetVoltage(channel: int, value: int, confirm: bool) returns (o: Outcome<()>)
      requires handle != null
      modifies handle
      ensures var vset := SetFrame(Board(), Decimal(channel), "VSET", Some(Decimal(value)));
              var vmon := MonFrame(Board(), "VMON", Some(Decimal(channel)));
              if old(handle.replies) == [] then
                o == Waiting && handle.sent == old(handle.sent) + [vset] && handle.replies == []
              else if !confirm then
                o == Done(()) && handle.sent == old(handle.sent) + [vset]
                && handle.replies == old(handle.replies)[1..]
              else
                var poll := PollUntil(old(handle.replies)[1..], Settled(value));
                var extra := if poll.0 == Waiting then 1 else 0;
                && o == poll.0
                && handle.sent == old(handle.sent) + [vset] + Repeat(vmon, poll.1 + extra)
                && handle.replies == old(handle.replies)[1 + poll.1..]
    {
      o := SetQuery("VSET", channel, Some(value));
      if o == Waiting || !confirm {
        return;
      }
      o := AwaitReadback(channel, value);
    }

    /** The confirm loop of `setVoltage`: reads VMON until the readback lies
        within 1.5 V of `value`. */
    method AwaitReadback(channel: int, value: int) returns (o: Outcome<()>)
      requires handle != null
      modifies handle
      ensures var poll := PollUntil(old(handle.replies), Settled(value));
              var extra := if poll.0 == Waiting then 1 else 0;
              && o == poll.0
              && handle.replies == old(handle.replies)[poll.1..]
              && handle.sent == old(handle.sent) + Repeat(MonFrame(Board(), "VMON", Some(Decimal(channel))), poll.1 + extra)
    {
      ghost var script := handle.replies;
      ghost var consumed := 0;
      ghost var vmon := MonFrame(Board(), "VMON", Some(Decimal(channel)));
      ghost var judge := Settled(value);
      while true
        invariant 0 <= consumed <= |script|
        invariant handle.replies == script[consumed..]
        invariant handle.sent == old(handle.sent) + Repeat(vmon, consumed)
        invariant PollUntil(script, judge).0 == PollUntil(script[consumed..], judge).0
        invariant PollUntil(script, judge).1 == PollUntil(script[consumed..], judge).1 + consumed
        decreases |handle.replies|
      {
        var reading := GetVoltage(channel);
        assert handle.sent == old(handle.sent) + Repeat(vmon, consumed + 1) by {
          Appended(old(handle.sent), Repeat(vmon, consumed), [vmon]);
        }
        if reading == Waiting {
          return Waiting;
        }
        assert script[consumed..][1..] == script[consumed + 1..];
        PollStep(script[consumed..], judge);
        consumed := consumed + 1;
        if reading.Failed? {
          return Failed(reading.fault);
        }
        var delta := reading.value - value as real;
        if -AllowedVoltageDelta < delta < AllowedVoltageDelta {
          return Done(());
        }
      }
    }

    /** `enableChannel(channel)`: a single value-less ON frame. */
    method EnableChannel(channel: int) returns (o: Outcome<()>)
      requires handle != null
      modifies handle
      ensures handle.sent == old(handle.sent) + [SetFrame(Board(), Decimal(channel), "ON", None)]
      ensures o == (if old(handle.replies) == [] then Waiting else Done(()))
      ensures handle.replies == if old(handle.replies) == [] then [] else old(handle.replies)[1..]
    {
      o := SetQuery("ON", channel, None);
    }

    /** `disableChannel(channel, confirm)`: ramps the channel to 0 V (waiting
        for the readback when `confirm`) and only then sends OFF. */
    method DisableChannel(channel: int, confirm: bool) returns (o: Outcome<()>)
      requires handle != null
      modifies handle
      ensures var vset := SetFrame(Board(), Decimal(channel), "VSET", Some(Decimal(0)));
              var vmon := MonFrame(Board(), "VMON", Some(Decimal(channel)));
              var off := SetFrame(Board(), Decimal(channel), "OFF", None);
              if old(handle.replies) == [] then
                o == Waiting && handle.sent == old(handle.sent) + [vset] && handle.replies == []
              else
                var ramp := if confirm then PollUntil(old(handle.replies)[1..], Settled(0)) else (Done(()), 0);
                var extra := if ramp.0 == Waiting then 1 else 0;
                var rest := old(handle.replies)[1 + ramp.1..];
                if ramp.0 != Done(()) then
                  && o == ramp.0 && handle.sent == old(handle.sent) + [vset] + Repeat(vmon, ramp.1 + extra)
                  && handle.replies == rest
                else
                  && handle.sent == old(handle.sent) + [vset] + Repeat(vmon, ramp.1) + [off]
                  && o == (if rest == [] then Waiting else Done(()))
                  && handle.replies == (if rest == [] then [] else rest[1..])
    {
      ghost var vset := SetFrame(Board(), Decimal(channel), "VSET", Some(Decimal(0)));
      ghost var vmon := MonFrame(Board(), "VMON", Some(Decimal(channel)));
      o := SetVoltage(channel, 0, confirm);
      if o != Done(()) {
        return;
      }
      ghost var ramp := if confirm then PollUntil(old(handle.replies)[1..], Settled(0)) else (Done(()), 0);
      assert handle.sent == old(handle.sent) + [vset] + Repeat(vmon, ramp.1);
      assert handle.replies == old(handle.replies)[1 + ramp.1..];
      o := SetQuery("OFF", channel, None);
    }

    /** `getModel()`: `self.model` is assigned only once the BDNAME reply of
        a connected supply was read without an exception; before that the
        attribute does not exist and reading it raises AttributeError. */
    method GetModel() returns (m: Result<Option<string>>)
      ensures m.Ok? <==> connected && status == Done(())
      ensures m.Ok? ==> m.value == model
      ensures m.Raised? ==> m.fault == AttributeError
    {
      if connected && status == Done(()) {
        m := Ok(model);
      } else {
        m := Raised(AttributeError);
      }
    }
  }
}
