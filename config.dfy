/** The configuration step of the acquisition script. Python's
    `configparser` reads the INI file strictly (a repeated section or option
    raises) into its DEFAULT options and its named sections; the script then
    copies the view of every section, DEFAULT first, into one table (option
    names keep their case, each view carries the default options, values are
    expanded by basic interpolation), and finally turns each value from text
    into something the script can use. */
module Config {
  import opened Base
  import opened Text

  /** A configuration value once normalised. */
  datatype Value =
    | Str(text: string)       // kept as written
    | Bool(flag: bool)        // YES / NO
    | Int(number: int)        // a group mask or a decimal integer
    | Biases(volts: seq<int>) // the list of sensor bias voltages

  /** One option: its name, as spelled, and its text. */
  type Entry = (string, string)

  /** A list of options, in order. */
  type Section = seq<Entry>

  /** One `[name]` header of the file with the options written under it, as
      the parser's line reader splits them into name and raw text. */
  datatype Block = Block(name: string, opts: Section)

  /** The parser once the file is read: the DEFAULT options and the named
      sections in the order of their headers. */
  datatype Parser = Parser(defaults: Section, sections: seq<(string, Section)>)

  const DefaultSection: string := "DEFAULT"

  /** `configparser.MAX_INTERPOLATION_DEPTH` */
  const MaxInterpolationDepth: nat := 10

  const BiasKey: string := "SENSOR_BIAS"

  /** BOOLEAN_PARAM */
  function Boolean(p: string): Option<bool> {
    if p == "YES" then Some(true)
    else if p == "NO" then Some(false)
    else None
  }

  /** TERNARY_PARAM: which digitizer groups are enabled, as a bit mask. */
  function Ternary(p: string): Option<int> {
    if p == "FIRST" then Some(0x1)
    else if p == "SECOND" then Some(0x2)
    else if p == "BOTH" then Some(0x3)
    else None
  }

  /** `s[1:-1]`: the text without its first and last character. */
  function Inner(s: string): string {
    if |s| >= 2 then s[1..|s| - 1] else ""
  }

  /** `[int(i) for i in pieces]`, or `None` when one piece is not an integer. */
  function ParseAll(pieces: seq<string>): (r: Option<seq<int>>)
    ensures r.Some? ==> |r.value| == |pieces|
  {
    if pieces == [] then Some([])
    else
      var head := ParseInt(pieces[0]);
      var tail := ParseAll(pieces[1..]);
      if head.None? || tail.None? then None
      else Some([head.value] + tail.value)
  }

  /** A list that was read holds the integer of each piece, in order. */
  lemma {:induction false} ParseAllPieces(pieces: seq<string>)
    requires ParseAll(pieces).Some?
    ensures forall i :: 0 <= i < |pieces| ==> ParseInt(pieces[i]) == Some(ParseAll(pieces).value[i])
  {
    if pieces != [] {
      var tail := pieces[1..];
      var head := ParseInt(pieces[0]);
      var rest := ParseAll(tail);
      assert head.Some? && rest.Some?;
      ParseAllPieces(tail);
      var vs := [head.value] + rest.value;
      assert ParseAll(pieces).value == vs;
      forall i | 0 <= i < |pieces|
        ensures ParseInt(pieces[i]) == Some(vs[i])
      {
        if i > 0 {
          assert pieces[i] == tail[i - 1] && vs[i] == rest.value[i - 1];
        }
      }
    }
  }

  /** The list is missing only when some piece is not an integer. */
  lemma {:induction false} ParseAllFails(pieces: seq<string>)
    requires ParseAll(pieces).None?
    ensures exists i :: 0 <= i < |pieces| && ParseInt(pieces[i]).None?
  {
    var tail := pieces[1..];
    if ParseInt(pieces[0]).None? {
      assert 0 < |pieces|;
    } else {
      assert ParseAll(tail).None?;
      ParseAllFails(tail);
      var i :| 0 <= i < |tail| && ParseInt(tail[i]).None?;
      assert pieces[i + 1] == tail[i];
    }
  }

  /** The normalised form of one option. */
  function Convert(key: string, param: string): Result<Value>
  {
    if key == BiasKey then
      match ParseAll(Split(Inner(param), ','))
      case Some(vs) => Ok(Biases(vs))
      case None => Raised(ValueError)
    else if Boolean(param).Some? then Ok(Bool(Boolean(param).value))
    else if Ternary(param).Some? then Ok(Int(Ternary(param).value))
    else
      match ParseInt(param)
      case Some(n) => Ok(Int(n))
      case None => Ok(Str(param))
  }

  /** Only the bias list can raise, and only with ValueError; text that is
      neither a token nor an integer is kept as it is. */
  lemma ConvertCases(key: string, param: string)
    ensures Convert(key, param).Raised? <==> key == BiasKey && ParseAll(Split(Inner(param), ',')).None?
    ensures Convert(key, param).Raised? ==> Convert(key, param).fault == ValueError
    ensures key == BiasKey && Convert(key, param).Ok? ==> Convert(key, param).value.Biases?
    ensures Convert(key, param).Ok? && Convert(key, param).value.Str? ==>
              Convert(key, param).value.text == param && ParseInt(param).None?
  {
  }

  /** Outside SENSOR_BIAS, YES/NO become booleans and FIRST/SECOND/BOTH the
      group masks 0b01/0b10/0b11. */
  lemma ConvertTokens(key: string)
    requires key != BiasKey
    ensures Convert(key, "YES") == Ok(Bool(true)) && Convert(key, "NO") == Ok(Bool(false))
    ensures && Convert(key, "FIRST") == Ok(Int(0x1))
            && Convert(key, "SECOND") == Ok(Int(0x2))
            && Convert(key, "BOTH") == Ok(Int(0x3))
  {
  }

  /** Outside SENSOR_BIAS, text that is not a token becomes its `int` when it
      is one and otherwise stays text. */
  lemma ConvertInt(key: string, param: string)
    requires key != BiasKey && param !in ["YES", "NO", "FIRST", "SECOND", "BOTH"]
    ensures ParseInt(param).Some? ==> Convert(key, param) == Ok(Int(ParseInt(param).value))
    ensures ParseInt(param).None? ==> Convert(key, param) == Ok(Str(param))
  {
    assert Boolean(param).None? && Ternary(param).None?;
  }

  // ---------------------------------------------------------------- reading

  /** The option names of a list of options, in order. */
  function Names(opts: Section): (ns: seq<string>)
    ensures |ns| == |opts| && forall i :: 0 <= i < |opts| ==> ns[i] == opts[i].0
  {
    seq(|opts|, i requires 0 <= i < |opts| => opts[i].0)
  }

  /** The names of a list of sections, in order. */
  function SectionNames(sections: seq<(string, Section)>): (ns: seq<string>)
    ensures |ns| == |sections| && forall i :: 0 <= i < |sections| ==> ns[i] == sections[i].0
  {
    seq(|sections|, i requires 0 <= i < |sections| => sections[i].0)
  }

  predicate Distinct(ns: seq<string>) {
    forall i, j :: 0 <= i < j < |ns| ==> ns[i] != ns[j]
  }

  lemma DistinctAppend(ns: seq<string>, n: string)
    ensures Distinct(ns + [n]) <==> Distinct(ns) && n !in ns
  {
    var t := ns + [n];
    if Distinct(t) {
      assert forall i, j :: 0 <= i < j < |ns| ==> ns[i] == t[i] && ns[j] == t[j];
      forall i | 0 <= i < |ns|
        ensures ns[i] != n
      {
        assert t[i] == ns[i] && t[|ns|] == n;
      }
    }
    if Distinct(ns) && n !in ns {
      forall i, j | 0 <= i < j < |t|
        ensures t[i] != t[j]
      {
        if j == |ns| {
          assert t[i] == ns[i];
        }
      }
    }
  }

  /** Options added one at a time to a section that already holds
      `existing`; a name the section already has raises
      DuplicateOptionError (strict mode). */
  function AddOptions(existing: Section, opts: Section): Result<Section>
    decreases |opts|
  {
    if opts == [] then Ok(existing)
    else if opts[0].0 in Names(existing) then Raised(DuplicateOptionError)
    else AddOptions(existing + [opts[0]], opts[1..])
  }

  /** Adding options succeeds exactly when no name ends up twice, and then
      the section holds the old options followed by the new ones. */
  lemma {:induction false} AddOptionsDistinct(existing: Section, opts: Section)
    requires Distinct(Names(existing))
    ensures AddOptions(existing, opts).Ok? <==> Distinct(Names(existing + opts))
    ensures AddOptions(existing, opts).Ok? ==> AddOptions(existing, opts).value == existing + opts
    ensures AddOptions(existing, opts).Raised? ==> AddOptions(existing, opts).fault == DuplicateOptionError
    decreases |opts|
  {
    if opts == [] {
      assert existing + opts == existing;
    } else {
      var next := existing + [opts[0]];
      assert existing + opts == next + opts[1..];
      assert Names(next) == Names(existing) + [opts[0].0];
      DistinctAppend(Names(existing), opts[0].0);
      if opts[0].0 in Names(existing) {
        var i :| 0 <= i < |existing| && Names(existing)[i] == opts[0].0;
        assert Names(existing + opts)[i] == Names(existing + opts)[|existing|];
      } else {
        AddOptionsDistinct(next, opts[1..]);
        if Distinct(Names(existing + opts)) {
          assert Names(next) == Names(existing + opts)[..|next|];
        }
      }
    }
  }

  /** One header: a DEFAULT header adds to the default options, any other
      opens a new section, and a named header seen before raises
      DuplicateSectionError (strict mode). */
  function AddBlock(p: Parser, b: Block): Result<Parser>
  {
    if b.name == DefaultSection then
      match AddOptions(p.defaults, b.opts)
      case Raised(f) => Raised(f)
      case Ok(d) => Ok(p.(defaults := d))
    else if b.name in SectionNames(p.sections) then Raised(DuplicateSectionError)
    else
      match AddOptions([], b.opts)
      case Raised(f) => Raised(f)
      case Ok(o) => Ok(p.(sections := p.sections + [(b.name, o)]))
  }

  /** `parser.read(path)` of a file with the given headers, in file order. */
  function Read(blocks: seq<Block>): Result<Parser>
  {
    if blocks == [] then Ok(Parser([], []))
    else
      match Read(blocks[..|blocks| - 1])
      case Raised(f) => Raised(f)
      case Ok(p) => AddBlock(p, blocks[|blocks| - 1])
  }

  /** The options of every DEFAULT header, in file order. */
  function DefaultOptions(blocks: seq<Block>): Section
  {
    if blocks == [] then []
    else
      var b := blocks[|blocks| - 1];
      DefaultOptions(blocks[..|blocks| - 1]) + (if b.name == DefaultSection then b.opts else [])
  }

  /** The other headers with their options, in file order. */
  function NamedSections(blocks: seq<Block>): seq<(string, Section)>
  {
    if blocks == [] then []
    else
      var b := blocks[|blocks| - 1];
      NamedSections(blocks[..|blocks| - 1]) + (if b.name == DefaultSection then [] else [(b.name, b.opts)])
  }

  /** What strict reading accepts: no named header twice, no option name
      twice under one header, and none twice among all DEFAULT headers. */
  predicate Readable(blocks: seq<Block>)
  {
    && Distinct(SectionNames(NamedSections(blocks)))
    && Distinct(Names(DefaultOptions(blocks)))
    && forall s :: s in NamedSections(blocks) ==> Distinct(Names(s.1))
  }

  /** A DEFAULT header keeps the file readable exactly when its options
      add no name the default options already have. */
  lemma ReadableDefault(blocks: seq<Block>)
    requires blocks != [] && blocks[|blocks| - 1].name == DefaultSection
    ensures var init := blocks[..|blocks| - 1];
            Readable(blocks) <==> Readable(init) && Distinct(Names(DefaultOptions(init) + blocks[|blocks| - 1].opts))
  {
    var init := blocks[..|blocks| - 1];
    var defs := DefaultOptions(init);
    var opts := blocks[|blocks| - 1].opts;
    assert NamedSections(blocks) == NamedSections(init);
    assert DefaultOptions(blocks) == defs + opts;
    assert Names(defs) == Names(defs + opts)[..|defs|];
  }

  /** Any other header keeps the file readable exactly when its name is new
      and its options have distinct names. */
  lemma ReadableNamed(blocks: seq<Block>)
    requires blocks != [] && blocks[|blocks| - 1].name != DefaultSection
    ensures var init := blocks[..|blocks| - 1];
            var b := blocks[|blocks| - 1];
            Readable(blocks) <==> Readable(init) && b.name !in SectionNames(NamedSections(init)) && Distinct(Names(b.opts))
  {
    var init := blocks[..|blocks| - 1];
    var b := blocks[|blocks| - 1];
    var secs := NamedSections(init);
    assert NamedSections(blocks) == secs + [(b.name, b.opts)];
    assert DefaultOptions(blocks) == DefaultOptions(init);
    assert SectionNames(secs + [(b.name, b.opts)]) == SectionNames(secs) + [b.name];
    DistinctAppend(SectionNames(secs), b.name);
    assert forall s :: s in secs + [(b.name, b.opts)] <==> s in secs || s == (b.name, b.opts);
  }

  /** What `ReadSpec` states about a list of headers. */
  predicate ReadAsWritten(blocks: seq<Block>)
  {
    && (Read(blocks).Ok? <==> Readable(blocks))
    && (Read(blocks).Ok? ==> Read(blocks).value == Parser(DefaultOptions(blocks), NamedSections(blocks)))
    && (Read(blocks).Raised? ==> Read(blocks).fault == DuplicateSectionError || Read(blocks).fault == DuplicateOptionError)
  }

  lemma ReadDefaultStep(blocks: seq<Block>)
    requires blocks != [] && blocks[|blocks| - 1].name == DefaultSection
    requires ReadAsWritten(blocks[..|blocks| - 1])
    ensures ReadAsWritten(blocks)
  {
    var init := blocks[..|blocks| - 1];
    var b := blocks[|blocks| - 1];
    ReadableDefault(blocks);
    assert DefaultOptions(blocks) == DefaultOptions(init) + b.opts;
    assert NamedSections(blocks) == NamedSections(init);
    if Read(init).Ok? {
      assert Read(blocks) == AddBlock(Read(init).value, b);
      AddOptionsDistinct(DefaultOptions(init), b.opts);
    }
  }

  lemma ReadNamedStep(blocks: seq<Block>)
    requires blocks != [] && blocks[|blocks| - 1].name != DefaultSection
    requires ReadAsWritten(blocks[..|blocks| - 1])
    ensures ReadAsWritten(blocks)
  {
    var init := blocks[..|blocks| - 1];
    var b := blocks[|blocks| - 1];
    ReadableNamed(blocks);
    assert DefaultOptions(blocks) == DefaultOptions(init);
    assert NamedSections(blocks) == NamedSections(init) + [(b.name, b.opts)];
    var r := Read(init);
    if r.Raised? {
      assert Read(blocks) == r;
    } else {
      assert Read(blocks) == AddBlock(r.value, b);
      assert r.value.sections == NamedSections(init);
      if b.name in SectionNames(r.value.sections) {
        assert Read(blocks) == Raised(DuplicateSectionError);
      } else {
        AddOptionsDistinct([], b.opts);
        assert [] + b.opts == b.opts;
      }
    }
  }

  /** Reading succeeds exactly on a file without repeated sections or
      options, and then holds the DEFAULT options and the named sections as
      written; otherwise it raises one of the two duplicate errors. */
  lemma {:induction false} ReadSpec(blocks: seq<Block>)
    ensures Read(blocks).Ok? <==> Readable(blocks)
    ensures Read(blocks).Ok? ==> Read(blocks).value == Parser(DefaultOptions(blocks), NamedSections(blocks))
    ensures Read(blocks).Raised? ==> Read(blocks).fault == DuplicateSectionError || Read(blocks).fault == DuplicateOptionError
    decreases |blocks|
  {
    if blocks == [] {
      assert ReadAsWritten(blocks);
    } else {
      ReadSpec(blocks[..|blocks| - 1]);
      if blocks[|blocks| - 1].name == DefaultSection {
        ReadDefaultStep(blocks);
      } else {
        ReadNamedStep(blocks);
      }
    }
  }

  // ---------------------------------------------------------- interpolation

  /** The text a section's view gives for `k`: the section's own option,
      else the default one (the parser's `ChainMap(section, defaults)`). */
  function ChainLookup(own: Section, defaults: Section, k: string): Option<string>
  {
    if LastIn(own, k).Some? then LastIn(own, k) else LastIn(defaults, k)
  }

  /** The first `)` at or after position `from`. */
  function CloseParen(s: string, from: nat): (r: Option<nat>)
    requires from <= |s|
    ensures r.Some? ==> from <= r.value < |s| && s[r.value] == ')'
                        && forall i :: from <= i < r.value ==> s[i] != ')'
    ensures r.None? ==> forall i :: from <= i < |s| ==> s[i] != ')'
    decreases |s| - from
  {
    if from == |s| then None
    else if s[from] == ')' then Some(from)
    else CloseParen(s, from + 1)
  }

  /** A `%(name)s` reference at the start of `s` (the pattern
      `%\(([^)]+)\)s`): the name and the length of the reference. */
  function Reference(s: string): (r: Option<(string, nat)>)
    requires |s| >= 2 && s[0] == '%' && s[1] == '('
    ensures r.Some? ==> 5 <= r.value.1 <= |s| && r.value.0 == s[2..r.value.1 - 2]
                        && s[r.value.1 - 2..r.value.1] == ")s" && |r.value.0| > 0 && ')' !in r.value.0
  {
    match CloseParen(s, 2)
    case None => None
    case Some(j) =>
      if j > 2 && j + 1 < |s| && s[j + 1] == 's' then Some((s[2..j], j + 2)) else None
  }

  /** Basic interpolation of the text `rest` in the view of a section with
      options `own`, `depth` references deep: `%%` stands for `%`,
      `%(name)s` for the view's text of `name` (itself expanded one level
      deeper when it holds a `%`); any other `%` raises
      InterpolationSyntaxError, an unknown name
      InterpolationMissingOptionError, and going past the depth limit
      InterpolationDepthError. */
  function Expand(own: Section, defaults: Section, rest: string, depth: nat): Result<string>
    decreases MaxInterpolationDepth + 1 - depth, |rest|
  {
    if depth > MaxInterpolationDepth then Raised(InterpolationDepthError)
    else if rest == [] then Ok([])
    else if rest[0] != '%' then After([rest[0]], Expand(own, defaults, rest[1..], depth))
    else if |rest| >= 2 && rest[1] == '%' then After("%", Expand(own, defaults, rest[2..], depth))
    else if |rest| >= 2 && rest[1] == '(' then
      match Reference(rest)
      case None => Raised(InterpolationSyntaxError)
      case Some((name, end)) =>
        match ChainLookup(own, defaults, name)
        case None => Raised(InterpolationMissingOptionError)
        case Some(v) =>
          var inner := if '%' in v then Expand(own, defaults, v, depth + 1) else Ok(v);
          match inner
          case Raised(f) => Raised(f)
          case Ok(text) => After(text, Expand(own, defaults, rest[end..], depth))
    else Raised(InterpolationSyntaxError)
  }

  /** Text without `%` is given back as written. */
  lemma {:induction false} PlainText(own: Section, defaults: Section, s: string, depth: nat)
    requires '%' !in s && depth <= MaxInterpolationDepth
    ensures Expand(own, defaults, s, depth) == Ok(s)
    decreases |s|
  {
    if s != [] {
      PlainText(own, defaults, s[1..], depth);
      assert [s[0]] + s[1..] == s;
    }
  }

  /** The text with every `%` written as `%%`. */
  function Escaped(s: string): string
  {
    if s == [] then []
    else (if s[0] == '%' then "%%" else [s[0]]) + Escaped(s[1..])
  }

  /** Interpolation reads `%%` back as `%`: escaped text expands to itself. */
  lemma {:induction false} EscapedRoundTrip(own: Section, defaults: Section, s: string, depth: nat)
    requires depth <= MaxInterpolationDepth
    ensures Expand(own, defaults, Escaped(s), depth) == Ok(s)
    decreases |s|
  {
    if s != [] {
      EscapedRoundTrip(own, defaults, s[1..], depth);
      var e := Escaped(s);
      if s[0] == '%' {
        assert e[2..] == Escaped(s[1..]);
      } else {
        assert e[1..] == Escaped(s[1..]);
      }
      assert [s[0]] + s[1..] == s;
    }
  }

  /** A reference to an option whose text has no `%` is replaced by that
      text. */
  lemma Substituted(own: Section, defaults: Section, name: string, t: string, depth: nat)
    requires |name| > 0 && ')' !in name && depth <= MaxInterpolationDepth
    requires ChainLookup(own, defaults, name).Some? && '%' !in ChainLookup(own, defaults, name).value
    ensures Expand(own, defaults, "%(" + name + ")s" + t, depth)
            == After(ChainLookup(own, defaults, name).value, Expand(own, defaults, t, depth))
  {
    var s := "%(" + name + ")s" + t;
    assert s[2..2 + |name|] == name;
    assert s[2 + |name|] == ')' && s[3 + |name|] == 's';
    assert forall i :: 2 <= i < 2 + |name| ==> s[i] == name[i - 2];
    assert CloseParen(s, 2) == Some(2 + |name|);
    assert s[4 + |name|..] == t;
  }

  /** A `%` followed by neither `%` nor `(`, or ending the text, raises. */
  lemma StrayPercent(own: Section, defaults: Section, s: string, depth: nat)
    requires |s| >= 1 && s[0] == '%' && (|s| == 1 || (s[1] != '%' && s[1] != '('))
    requires depth <= MaxInterpolationDepth
    ensures Expand(own, defaults, s, depth) == Raised(InterpolationSyntaxError)
  {
  }

  // ------------------------------------------------------------------ views

  /** Every entry with its text expanded in the view of `own`; the first
      entry that cannot be expanded raises. */
  function ExpandAll(own: Section, defaults: Section, entries: Section): Result<Section>
  {
    if entries == [] then Ok([])
    else
      match ExpandAll(own, defaults, entries[..|entries| - 1])
      case Raised(f) => Raised(f)
      case Ok(done) =>
        var (name, raw) := entries[|entries| - 1];
        match Expand(own, defaults, raw, 1)
        case Raised(f) => Raised(f)
        case Ok(text) => Ok(done + [(name, text)])
  }

  /** The default options a section does not set itself. */
  function Inherited(own: Section, defaults: Section): Section
  {
    if defaults == [] then []
    else
      var d := defaults[|defaults| - 1];
      Inherited(own, defaults[..|defaults| - 1]) + (if LastIn(own, d.0).None? then [d] else [])
  }

  /** `parser[part]` as `CONFIG.update` reads it: the section's own options,
      then the defaults it does not set, each with its text expanded. */
  function View(own: Section, defaults: Section): Result<Section>
  {
    ExpandAll(own, defaults, own + Inherited(own, defaults))
  }

  /** `for part in parser`: DEFAULT first (a part with no options of its
      own), then every named section in order. */
  function Parts(sections: seq<(string, Section)>): (parts: seq<Section>)
    ensures |parts| == |sections| + 1
  {
    if sections == [] then [[]]
    else Parts(sections[..|sections| - 1]) + [sections[|sections| - 1].1]
  }

  /** The views of the parts in order, or the first exception. */
  function Views(parts: seq<Section>, defaults: Section): Result<seq<Section>>
  {
    if parts == [] then Ok([])
    else
      match Views(parts[..|parts| - 1], defaults)
      case Raised(f) => Raised(f)
      case Ok(vs) =>
        match View(parts[|parts| - 1], defaults)
        case Raised(f) => Raised(f)
        case Ok(v) => Ok(vs + [v])
  }

  /** Once the views of a prefix raise, so do the views of the whole. */
  lemma {:induction false} ViewsRaised(parts: seq<Section>, s: nat, defaults: Section)
    requires s <= |parts| && Views(parts[..s], defaults).Raised?
    ensures Views(parts, defaults) == Views(parts[..s], defaults)
    decreases |parts|
  {
    if s < |parts| {
      var init := parts[..|parts| - 1];
      assert init[..s] == parts[..s];
      ViewsRaised(init, s, defaults);
    } else {
      assert parts[..s] == parts;
    }
  }

  /** The last text of `k` in `a + b`: from `b` when it names `k`. */
  lemma {:induction false} LastInAppend(a: Section, b: Section, k: string)
    ensures LastIn(a + b, k) == if LastIn(b, k).Some? then LastIn(b, k) else LastIn(a, k)
    decreases |b|
  {
    if b == [] {
      assert a + b == a;
    } else {
      assert (a + b)[..|a + b| - 1] == a + b[..|b| - 1];
      LastInAppend(a, b[..|b| - 1], k);
    }
  }

  /** The inherited defaults name `k` exactly when the section does not,
      with the default text. */
  lemma {:induction false} InheritedLast(own: Section, defaults: Section, k: string)
    ensures LastIn(Inherited(own, defaults), k) == if LastIn(own, k).Some? then None else LastIn(defaults, k)
    decreases |defaults|
  {
    if defaults != [] {
      var d := defaults[|defaults| - 1];
      var init := defaults[..|defaults| - 1];
      InheritedLast(own, init, k);
      LastInAppend(Inherited(own, init), if LastIn(own, d.0).None? then [d] else [], k);
    }
  }

  /** Expanding a list of entries expands the last entry of each name. */
  lemma {:induction false} ExpandAllLast(own: Section, defaults: Section, entries: Section, items: Section, k: string)
    requires ExpandAll(own, defaults, entries) == Ok(items)
    ensures LastIn(entries, k).None? ==> LastIn(items, k).None?
    ensures LastIn(entries, k).Some? ==>
              && Expand(own, defaults, LastIn(entries, k).value, 1).Ok?
              && LastIn(items, k) == Some(Expand(own, defaults, LastIn(entries, k).value, 1).value)
    decreases |entries|
  {
    if entries != [] {
      var init := entries[..|entries| - 1];
      var done := ExpandAll(own, defaults, init).value;
      ExpandAllLast(own, defaults, init, done, k);
      assert items[..|items| - 1] == done;
    }
  }

  /** The expanded text of `k` in the view of `own`, if it has one. */
  function TextIn(own: Section, defaults: Section, k: string): Option<string>
  {
    match ChainLookup(own, defaults, k)
    case None => None
    case Some(raw) =>
      match Expand(own, defaults, raw, 1)
      case Ok(text) => Some(text)
      case Raised(_) => None
  }

  /** A section's view gives `k` exactly when the section or the defaults
      set it, with the expanded text of its own option, else the default's. */
  lemma ViewLast(own: Section, defaults: Section, items: Section, k: string)
    requires View(own, defaults) == Ok(items)
    ensures ChainLookup(own, defaults, k).Some? ==> Expand(own, defaults, ChainLookup(own, defaults, k).value, 1).Ok?
    ensures LastIn(items, k) == TextIn(own, defaults, k)
  {
    ExpandAllLast(own, defaults, own + Inherited(own, defaults), items, k);
    LastInAppend(own, Inherited(own, defaults), k);
    InheritedLast(own, defaults, k);
  }

  // ---------------------------------------------------------------- merging

  function Lookup(m: map<string, string>, k: string): Option<string> {
    if k in m then Some(m[k]) else None
  }

  /** `CONFIG.update(section)`: the entries of one view, one after another. */
  function Assign(m: map<string, string>, opts: Section): map<string, string>
  {
    if opts == [] then m
    else
      var last := opts[|opts| - 1];
      Assign(m, opts[..|opts| - 1])[last.0 := last.1]
  }

  /** The text of the last option named `k` in a list, if any. */
  function LastIn(opts: Section, k: string): Option<string> {
    if opts == [] then None
    else if opts[|opts| - 1].0 == k then Some(opts[|opts| - 1].1)
    else LastIn(opts[..|opts| - 1], k)
  }

  /** The table after updating it with every view in order. */
  function Merged(views: seq<Section>): map<string, string>
  {
    if views == [] then map[]
    else Assign(Merged(views[..|views| - 1]), views[|views| - 1])
  }

  /** The text of `k` in the last view that names it. */
  function LastAcross(views: seq<Section>, k: string): Option<string> {
    if views == [] then None
    else
      match LastIn(views[|views| - 1], k)
      case Some(v) => Some(v)
      case None => LastAcross(views[..|views| - 1], k)
  }

  /** Updating the table with a view sets the names the view gives, to
      their last text, and leaves every other name as it was. */
  lemma {:induction false} AssignLast(m: map<string, string>, opts: Section, k: string)
    ensures Lookup(Assign(m, opts), k) == if LastIn(opts, k).Some? then LastIn(opts, k) else Lookup(m, k)
    decreases |opts|
  {
    if opts != [] {
      AssignLast(m, opts[..|opts| - 1], k);
    }
  }

  /** The table holds exactly the names the views give, as spelled, each
      with its text in the last view that gives it. */
  lemma {:induction false} MergedLast(views: seq<Section>, k: string)
    ensures Lookup(Merged(views), k) == LastAcross(views, k)
    decreases |views|
  {
    if views != [] {
      var init := views[..|views| - 1];
      MergedLast(init, k);
      AssignLast(Merged(init), views[|views| - 1], k);
    }
  }

  /** The last section that sets `k` itself. */
  function LastOwner(sections: seq<(string, Section)>, k: string): Option<Section>
  {
    if sections == [] then None
    else if LastIn(sections[|sections| - 1].1, k).Some? then Some(sections[|sections| - 1].1)
    else LastOwner(sections[..|sections| - 1], k)
  }

  /** The part whose view sets `k` last. Every view carries the default
      options, so a default option is set last by the last section (by
      DEFAULT's own view when there is none); any other option by the last
      section that sets it itself. */
  function Setter(defaults: Section, sections: seq<(string, Section)>, k: string): Option<Section>
  {
    if LastIn(defaults, k).Some? then Some(if sections == [] then [] else sections[|sections| - 1].1)
    else LastOwner(sections, k)
  }

  /** The text the script ends up with for `k`: the expanded text of `k` in
      the view of the part that sets it last. */
  function FinalText(p: Parser, k: string): Option<string>
  {
    match Setter(p.defaults, p.sections, k)
    case None => None
    case Some(own) => TextIn(own, p.defaults, k)
  }

  /** The last part, in loop order, whose view gives `k`. */
  function LastSetter(parts: seq<Section>, defaults: Section, k: string): Option<Section>
  {
    if parts == [] then None
    else if ChainLookup(parts[|parts| - 1], defaults, k).Some? then Some(parts[|parts| - 1])
    else LastSetter(parts[..|parts| - 1], defaults, k)
  }

  /** Scanning the parts in loop order finds the setter described above. */
  lemma {:induction false} SetterCases(defaults: Section, sections: seq<(string, Section)>, k: string)
    ensures LastSetter(Parts(sections), defaults, k) == Setter(defaults, sections, k)
    decreases |sections|
  {
    if sections == [] {
      assert Parts(sections) == [[]];
      assert Parts(sections)[..0] == [];
    } else {
      var init := sections[..|sections| - 1];
      SetterCases(defaults, init, k);
      assert Parts(sections)[..|Parts(sections)| - 1] == Parts(init);
    }
  }

  /** The views of the parts, merged in order, give each name the text of
      the view that sets it last. */
  lemma {:induction false} ViewsLast(parts: seq<Section>, defaults: Section, views: seq<Section>, k: string)
    requires Views(parts, defaults) == Ok(views)
    ensures LastAcross(views, k) ==
              match LastSetter(parts, defaults, k)
              case None => None
              case Some(own) => TextIn(own, defaults, k)
    decreases |parts|
  {
    if parts != [] {
      var init := parts[..|parts| - 1];
      var last := parts[|parts| - 1];
      var vs := Views(init, defaults).value;
      var v := View(last, defaults).value;
      assert views == vs + [v];
      assert views[..|views| - 1] == vs;
      ViewsLast(init, defaults, vs, k);
      ViewLast(last, defaults, v, k);
    }
  }

  /** After the loop `for part in parser: CONFIG.update(parser[part])`,
      the table holds exactly the names some part sets, each with the text
      of the part that sets it last. */
  lemma ConfiguredText(p: Parser, views: seq<Section>, k: string)
    requires Views(Parts(p.sections), p.defaults) == Ok(views)
    ensures Lookup(Merged(views), k) == FinalText(p, k)
  {
    MergedLast(views, k);
    ViewsLast(Parts(p.sections), p.defaults, views, k);
    SetterCases(p.defaults, p.sections, k);
  }

  // -------------------------------------------------------- normalising

  /** Converting every option of a table, or the exception the first
      malformed bias list raises. */
  function Normalised(raw: map<string, string>): Result<map<string, Value>>
  {
    if exists k :: k in raw && Convert(k, raw[k]).Raised? then Raised(ValueError)
    else Ok(map k | k in raw :: Convert(k, raw[k]).value)
  }

  /** The whole of `parseConfig`: read the file, merge the views of its
      parts, convert the values. */
  function Configured(blocks: seq<Block>): Result<map<string, Value>>
  {
    match Read(blocks)
    case Raised(f) => Raised(f)
    case Ok(p) =>
      match Views(Parts(p.sections), p.defaults)
      case Raised(f) => Raised(f)
      case Ok(views) => Normalised(Merged(views))
  }

  /** `CONFIG.update(view)`: the entries one after another; `keys` is the
      table's insertion order. */
  method Update(table: map<string, string>, keys: seq<string>, opts: Section)
    returns (updated: map<string, string>, order: seq<string>)
    requires forall k :: k in table <==> k in keys
    requires Distinct(keys)
    ensures updated == Assign(table, opts)
    ensures forall k :: k in updated <==> k in order
    ensures Distinct(order)
  {
    updated, order := table, keys;
    for o := 0 to |opts|
      invariant updated == Assign(table, opts[..o])
      invariant forall k :: k in updated <==> k in order
      invariant Distinct(order)
    {
      var (name, text) := opts[o];
      assert opts[..o + 1][..o] == opts[..o];
      if name !in updated {
        DistinctAppend(order, name);
        order := order + [name];
      }
      updated := updated[name := text];
    }
    assert opts[..|opts|] == opts;
  }

  /** One malformed bias list makes the whole conversion raise. */
  lemma NormalisedRaised(table: map<string, string>, key: string)
    requires key in table && Convert(key, table[key]).Raised?
    ensures Normalised(table) == Raised(ValueError)
  {
  }

  /** A table whose every value converts gives the converted table. */
  lemma NormalisedOk(table: map<string, string>, out: map<string, Value>)
    requires forall k :: k in out <==> k in table
    requires forall k :: k in out ==> Convert(k, table[k]) == Ok(out[k])
    ensures Normalised(table) == Ok(out)
  {
    assert forall k :: k in table ==> Convert(k, table[k]).Ok?;
    assert out == map k | k in table :: Convert(k, table[k]).value;
  }

  /** Converting one more entry keeps every converted value right. */
  lemma ConvertedStep(table: map<string, string>, out: map<string, Value>, key: string, v: Value)
    requires key in table && Convert(key, table[key]) == Ok(v)
    requires forall k :: k in out ==> k in table && Convert(k, table[k]) == Ok(out[k])
    ensures forall k :: k in out[key := v] ==> k in table && Convert(k, table[k]) == Ok(out[key := v][k])
  {
  }

  /** The conversion loop of `parseConfig`: every value of the table in
      insertion order, stopping at the first malformed bias list. */
  method Normalise(table: map<string, string>, keys: seq<string>) returns (r: Result<map<string, Value>>)
    requires forall k :: k in table <==> k in keys
    ensures r == Normalised(table)
  {
    var out: map<string, Value> := map[];
    for i := 0 to |keys|
      invariant forall k :: k in out <==> k in keys[..i]
      invariant forall k :: k in out ==> k in table && Convert(k, table[k]) == Ok(out[k])
    {
      var key := keys[i];
      assert keys[..i + 1] == keys[..i] + [key];
      var c := Convert(key, table[key]);
      if c.Raised? {
        NormalisedRaised(table, key);
        return Raised(ValueError);
      }
      ConvertedStep(table, out, key, c.value);
      out := out[key := c.value];
    }
    assert keys[..|keys|] == keys;
    NormalisedOk(table, out);
    return Ok(out);
  }

  /** One more part in the loop of `parseConfig`: its view is appended to
      the views so far. */
  lemma ViewsStep(parts: seq<Section>, s: nat, defaults: Section, views: seq<Section>, v: Section)
    requires s < |parts| && Views(parts[..s], defaults) == Ok(views)
    requires View(parts[s], defaults) == Ok(v)
    ensures Views(parts[..s + 1], defaults) == Ok(views + [v])
  {
    assert parts[..s + 1][..s] == parts[..s];
  }

  /** ...and the table is updated with it. */
  lemma MergedStep(views: seq<Section>, v: Section)
    ensures Merged(views + [v]) == Assign(Merged(views), v)
  {
    assert (views + [v])[..|views|] == views;
  }

  /** A part whose view raises ends the loop of `parseConfig` with that
      exception. */
  lemma ViewsStopped(parts: seq<Section>, s: nat, defaults: Section, views: seq<Section>)
    requires s < |parts| && Views(parts[..s], defaults) == Ok(views)
    requires View(parts[s], defaults).Raised?
    ensures Views(parts, defaults) == Raised(View(parts[s], defaults).fault)
  {
    assert parts[..s + 1][..s] == parts[..s];
    ViewsRaised(parts, s + 1, defaults);
  }

  /** `parseConfig`: read the file, update the table with the view of every
      part in turn, then convert each value in the table's order. */
  method ParseConfig(blocks: seq<Block>) returns (r: Result<map<string, Value>>)
    ensures r == Configured(blocks)
  {
    var read := Read(blocks);
    if read.Raised? {
      return Raised(read.fault);
    }
    var parser := read.value;
    var parts := Parts(parser.sections);
    var table: map<string, string> := map[];
    var keys: seq<string> := [];
    ghost var views: seq<Section> := [];
    for s := 0 to |parts|
      invariant Views(parts[..s], parser.defaults) == Ok(views)
      invariant table == Merged(views)
      invariant forall k :: k in table <==> k in keys
      invariant Distinct(keys)
    {
      var view := View(parts[s], parser.defaults);
      if view.Raised? {
        ViewsStopped(parts, s, parser.defaults, views);
        return Raised(view.fault);
      }
      ViewsStep(parts, s, parser.defaults, views, view.value);
      MergedStep(views, view.value);
      table, keys := Update(table, keys, view.value);
      views := views + [view.value];
    }
    assert parts[..|parts|] == parts;
    r := Normalise(table, keys);
  }

  // ----------------------------------------------------------- round trips

  /** The texts of a list of integers, as `str` writes them. */
  function Decimals(vs: seq<int>): (ds: seq<string>)
    ensures |ds| == |vs|
  {
    if vs == [] then [] else [Decimal(vs[0])] + Decimals(vs[1..])
  }

  /** Each text is the one `str` writes for its integer. */
  lemma {:induction false} DecimalsAt(vs: seq<int>, i: int)
    requires 0 <= i < |vs|
    ensures Decimals(vs)[i] == Decimal(vs[i])
  {
    if i > 0 {
      DecimalsAt(vs[1..], i - 1);
    }
  }

  /** Integers written with `str` are read back by `int`, piece by piece. */
  lemma {:induction false} ParseDecimals(vs: seq<int>)
    ensures ParseAll(Decimals(vs)) == Some(vs)
  {
    if vs != [] {
      var ds := Decimals(vs);
      assert ds[1..] == Decimals(vs[1..]);
      ParseDecimals(vs[1..]);
      ParseIntDecimal(vs[0]);
      assert [vs[0]] + vs[1..] == vs;
    }
  }

  /** A bias list written between any two delimiters, comma-separated, is
      read back as that list: `"[100,200]"` gives `[100, 200]`. */
  lemma BiasRoundTrip(open: char, vs: seq<int>, close: char)
    requires vs != []
    ensures Convert(BiasKey, [open] + Join(Decimals(vs), ',') + [close]) == Ok(Biases(vs))
  {
    var ds := Decimals(vs);
    var s := [open] + Join(ds, ',') + [close];
    assert Inner(s) == Join(ds, ',');
    forall i | 0 <= i < |ds|
      ensures ',' !in ds[i]
    {
      DecimalsAt(vs, i);
      DecimalChars(vs[i]);
    }
    SplitJoin(ds, ',');
    ParseDecimals(vs);
  }

  /** Any other option written as `str(n)` is read back as the integer `n`. */
  lemma IntRoundTrip(key: string, n: int)
    requires key != BiasKey
    ensures Convert(key, Decimal(n)) == Ok(Int(n))
  {
    var d := Decimal(n);
    DecimalChars(n);
    assert IsDigit(d[0]) || d[0] == '-';
    assert Boolean(d).None? by {
      assert "YES"[0] == 'Y' && "NO"[0] == 'N';
    }
    assert Ternary(d).None? by {
      assert "FIRST"[0] == 'F' && "SECOND"[0] == 'S' && "BOTH"[0] == 'B';
    }
    ParseIntDecimal(n);
  }

  /** After a successful `parseConfig`, the table holds exactly the names
      some part sets, each converted from the text of the part that sets it
      last. */
  lemma ParsedOption(blocks: seq<Block>, k: string)
    requires Configured(blocks).Ok?
    ensures Read(blocks).Ok?
    ensures var t := Configured(blocks).value;
            var text := FinalText(Read(blocks).value, k);
            (k in t <==> text.Some?) && (k in t ==> Convert(k, text.value) == Ok(t[k]))
  {
    var p := Read(blocks).value;
    var views := Views(Parts(p.sections), p.defaults).value;
    ConfiguredText(p, views, k);
  }

  /** The file of `DefaultReassigned`, read and viewed. */
  const Example: seq<Block> := [Block(DefaultSection, [("X", "1")]), Block("A", [("X", "2")]), Block("B", [])]
  const ExampleParser: Parser := Parser([("X", "1")], [("A", [("X", "2")]), ("B", [])])
  const ExampleViews: seq<Section> := [[("X", "1")], [("X", "2")], [("X", "1")]]

  lemma ExampleRead()
    ensures Read(Example) == Ok(ExampleParser)
  {
    var b0, b1, b2 := Example[0], Example[1], Example[2];
    var defaults := ExampleParser.defaults;
    var p := ExampleParser;
    assert Example[..2] == [b0, b1] && [b0, b1][..1] == [b0] && [b0][..0] == [];
    assert AddOptions([], defaults) == Ok(defaults) by {
      assert defaults[1..] == [] && [] + defaults == defaults;
    }
    assert AddOptions([], [("X", "2")]) == Ok([("X", "2")]) by {
      assert [("X", "2")][1..] == [] && [] + [("X", "2")] == [("X", "2")];
    }
    assert Read([b0]) == Ok(Parser(defaults, []));
    assert Read([b0, b1]) == AddBlock(Parser(defaults, []), b1);
    assert SectionNames([]) == [];
    assert "A" != DefaultSection && "B" != DefaultSection by {
      assert DefaultSection[0] == 'D';
    }
    assert [] + [("A", [("X", "2")])] == [("A", [("X", "2")])];
    assert [("A", [("X", "2")])] + [("B", [])] == p.sections;
    assert Read([b0, b1]) == Ok(Parser(defaults, [("A", [("X", "2")])]));
    assert Read(Example) == AddBlock(Parser(defaults, [("A", [("X", "2")])]), b2);
    assert SectionNames([("A", [("X", "2")])]) == ["A"];
    assert AddOptions([], []) == Ok([]);
  }

  lemma ExampleParts()
    ensures Parts(ExampleParser.sections) == [[], [("X", "2")], []]
  {
    var sections := ExampleParser.sections;
    assert sections[..1] == [("A", [("X", "2")])] && sections[..1][..0] == [];
    assert Parts(sections[..1][..0]) == [[]];
    assert Parts(sections[..1]) == [[]] + [[("X", "2")]];
  }

  lemma ExampleViewOfDefault()
    ensures View([], ExampleParser.defaults) == Ok(ExampleParser.defaults)
  {
    var defaults := ExampleParser.defaults;
    PlainText([], defaults, "1", 1);
    assert Inherited([], defaults) == defaults by {
      assert defaults[..0] == [];
    }
    assert [] + defaults == defaults && defaults[..0] == [];
    assert ExpandAll([], defaults, defaults) == Ok([] + [("X", "1")]);
  }

  lemma ExampleViewOfA()
    ensures View([("X", "2")], ExampleParser.defaults) == Ok([("X", "2")])
  {
    var defaults := ExampleParser.defaults;
    PlainText([("X", "2")], defaults, "2", 1);
    assert Inherited([("X", "2")], defaults) == [] by {
      assert defaults[..0] == [];
    }
    assert [("X", "2")] + [] == [("X", "2")] && [("X", "2")][..0] == [];
    assert [] + [("X", "2")] == [("X", "2")];
  }

  lemma ExampleViewsOf()
    ensures Views(Parts(ExampleParser.sections), ExampleParser.defaults) == Ok(ExampleViews)
  {
    var defaults := ExampleParser.defaults;
    var parts := Parts(ExampleParser.sections);
    ExampleParts();
    ExampleViewOfDefault();
    ExampleViewOfA();
    var first: seq<Section> := [[]];
    assert parts[..2] == [[], [("X", "2")]] && parts[..2][..1] == first && first[..0] == [];
    assert Views(first, defaults) == Ok([] + [defaults]);
    assert [] + [defaults] == [defaults];
    assert Views([[], [("X", "2")]], defaults) == Ok([defaults] + [[("X", "2")]]);
    assert [defaults] + [[("X", "2")]] + [defaults] == ExampleViews;
  }

  lemma ExampleTable()
    ensures Merged(ExampleViews) == map["X" := "1"]
  {
    var p := ExampleParser;
    var defaults := p.defaults;
    var raw := Merged(ExampleViews);
    ExampleViewsOf();
    forall k
      ensures Lookup(raw, k) == Lookup(map["X" := "1"], k)
    {
      ConfiguredText(p, ExampleViews, k);
      if k == "X" {
        assert Setter(defaults, p.sections, k) == Some([]);
        PlainText([], defaults, "1", 1);
        assert TextIn([], defaults, k) == Some("1");
      } else {
        assert p.sections[..1] == [("A", [("X", "2")])] && p.sections[..1][..0] == [];
        assert [("X", "2")][..0] == [];
        assert LastIn([("X", "2")], k) == None;
        assert LastOwner(p.sections[..1], k) == None;
        assert LastOwner(p.sections, k) == None;
      }
    }
    forall k ensures k in raw <==> k == "X" {
      assert Lookup(raw, k).Some? <==> Lookup(map["X" := "1"], k).Some?;
    }
    assert Lookup(raw, "X") == Some("1");
  }

  lemma ExampleNormalised()
    ensures Normalised(map["X" := "1"]) == Ok(map["X" := Int(1)])
  {
    var raw := map["X" := "1"];
    assert Convert("X", "1") == Ok(Int(1)) by {
      IntRoundTrip("X", 1);
      assert Decimal(1) == "1";
    }
    assert forall k :: k in raw ==> k == "X";
    assert !exists k :: k in raw && Convert(k, raw[k]).Raised?;
    assert (map k | k in raw :: Convert(k, raw[k]).value) == map["X" := Int(1)];
  }

  /** Every section's view carries the default options, so a section that
      does not set a default option puts the default text back: with
      `[DEFAULT] X=1`, `[A] X=2` and `[B]`, the script ends with `X = 1`. */
  lemma DefaultReassigned()
    ensures Configured([Block(DefaultSection, [("X", "1")]), Block("A", [("X", "2")]), Block("B", [])])
            == Ok(map["X" := Int(1)])
  {
    ExampleRead();
    ExampleViewsOf();
    ExampleTable();
    ExampleNormalised();
  }
}
