/** The band file reader (session/src/parser.rs): a text of blocks, one per
    talker, mixer or output, read into three maps from identifier to
    description. Talker descriptions are kept close to the text: names,
    tags and voices are slices of it and constant values stay literals. */
module SessionParser {
  import opened Wrappers
  import opened Numeric
  import opened Strs

  /** What an ear input is connected to: a talker's voice or a constant. */
  datatype PTalk = TalkerVoice(talker: nat, voice: string) | Value(literal: string)

  datatype PConnection = PConnection(earTag: string, setIdx: nat, humTag: string, talkIdx: nat, talk: PTalk)

  datatype PTalker = PTalker(model: string, id: nat, name: string, data: Option<string>, connections: seq<PConnection>)

  datatype PMixer = PMixer(id: nat, name: string, connections: seq<PConnection>, outputs: seq<nat>)

  datatype POutput = POutput(model: string, id: nat, name: string, data: Option<string>)

  datatype Band = Band(talkers: map<nat, PTalker>, mixers: map<nat, PMixer>, outputs: map<nat, POutput>)

  const EMPTY_BAND := Band(map[], map[], map[])

  /** One reading step: the text left and the value read, an error that `?`
      hands to the caller, or a panic of an `unwrap` on `None`. */
  datatype Step<T> = Read(rest: string, value: T) | Fail(msg: string) | Abort(reason: string)

  /** The outcome of reading a whole text. */
  datatype Outcome<T> = Parsed(value: T) | Failed(msg: string) | Aborted(reason: string)

  /** `id_from_str`: a `u32` in decimal, or an error naming the text and the
      reason `from_str` gives. */
  function IdFromStr(s: string): (r: Result<nat>)
    ensures r.Ok? ==> r.value < U32_LIMIT
    ensures r.Ok? ==> |s| > 0 && (IsDigit(s[0]) || s[0] == '+')
    ensures r.Err? ==> StartsWith(r.msg, "Failed to get id from " + s + " : ")
  {
    match ParseU32(s)
    case Some(id) => Ok(id)
    case None =>
      var head := "Failed to get id from " + s + " : ";
      var msg := head + UnsignedErrorText(s, U32_LIMIT) + "!";
      assert msg[..|head|] == head;
      Err(msg)
  }

  /** The decimal text of an identifier reads back as that identifier. */
  lemma {:induction false} IdFromStrFormat(id: nat)
    requires id < U32_LIMIT
    ensures IdFromStr(FormatNat(id)) == Ok(id)
  {
    ParseFormatNat(id, U32_LIMIT);
  }

  /** A text that is not a plain decimal number is refused with a reason. */
  lemma {:induction false} IdFromStrRefusesNonDigits(s: string, i: nat)
    requires i < |s| && !IsDigit(s[i]) && !(i == 0 && s[0] == '+')
    ensures IdFromStr(s).Err?
  {
    if |s| > 0 && s[0] == '+' {
      assert s[1..][i - 1] == s[i];
    }
  }

  /** `parse_id_name`: `id#name` up to the end of the line, or a bare `id`.
      The `#` is looked for in the whole text, so a `#` on a later line makes
      the name slice run backwards and panic; a missing line end panics too. */
  function ParseIdName(source: string): (r: Step<(nat, string)>)
    ensures r.Read? ==> SuffixOf(r.rest, source) && |r.rest| < |source|
    ensures r.Read? ==> r.value.0 < U32_LIMIT && '\n' !in r.value.1
  {
    var descEnd := match FindChar(source, '\n') case Some(i) => i case None => |source|;
    var hash := FindChar(source, '#');
    if hash.Some? && hash.value > descEnd then Abort("name slice out of bounds")
    else if descEnd == |source| then Abort("no line end after the identifier")
    else
      var idDesc := if hash.Some? then source[..hash.value] else source[..descEnd];
      var name := if hash.Some? then source[hash.value + 1..descEnd] else "";
      assert '\n' !in source[..descEnd];
      assert hash.Some? ==> name == source[..descEnd][hash.value + 1..];
      match IdFromStr(idDesc)
      case Err(m) => Fail(m)
      case Ok(id) => Read(source[descEnd + 1..], (id, name))
  }

  /** `parse_data`: an optional `[:data:]` line. */
  function ParseData(source: string): (r: Step<Option<string>>)
    ensures r.Read? ==> SuffixOf(r.rest, source)
    ensures r.Read? && r.value.None? ==> r.rest == source && !StartsWith(source, "[:")
    ensures r.Fail? ==> false
  {
    if StartsWith(source, "[:") then
      match Find(source, ":]\n")
      case None => Abort("no `:]` line end after data")
      case Some(e) =>
        if e < 2 then Abort("data slice out of bounds")
        else Read(source[e + 3..], Some(source[2..e]))
    else Read(source, None)
  }

  /** The ear side of a connection, `ear.set.hum.talk`: missing parts are
      empty or 0, and so are indexes that do not parse. */
  function EarFields(earDesc: string): (r: (string, nat, string, nat))
    ensures '.' !in r.0 && '.' !in r.2
    ensures r.1 < USIZE_LIMIT && r.3 < USIZE_LIMIT
  {
    match FindChar(earDesc, '.')
    case None => (earDesc, 0, "", 0)
    case Some(e1) =>
      var tag := earDesc[..e1];
      var d1 := earDesc[e1 + 1..];
      match FindChar(d1, '.')
      case None => (tag, ParseUsize(d1).GetOr(0), "", 0)
      case Some(e2) =>
        var setIdx := ParseUsize(d1[..e2]).GetOr(0);
        var d2 := d1[e2 + 1..];
        match FindChar(d2, '.')
        case None => (tag, setIdx, d2, 0)
        case Some(e3) => (tag, setIdx, d2[..e3], ParseUsize(d2[e3 + 1..]).GetOr(0))
  }

  /** The talk side of a connection: a float literal is a constant, otherwise
      `id:voice` or a bare `id` names a talker's voice. */
  function TalkOf(desc: string): (r: Result<PTalk>)
    ensures r.Ok? && r.value.Value? <==> IsF32Literal(desc)
    ensures r.Ok? && r.value.TalkerVoice? ==> r.value.talker < U32_LIMIT
  {
    if IsF32Literal(desc) then Ok(Value(desc))
    else match FindChar(desc, ':')
      case Some(k) =>
        var id :- IdFromStr(desc[..k]);
        Ok(TalkerVoice(id, desc[k + 1..]))
      case None =>
        var id :- IdFromStr(desc);
        Ok(TalkerVoice(id, ""))
  }

  /** One `ear.set.hum.talk <- talk` line, after its `> `. The ` <- ` is
      looked for in the whole text and the line end after it; a line end
      before the ` <- ` makes the talk slice run backwards and panic. */
  function ParseConnection(src: string): (r: Step<PConnection>)
    ensures r.Read? ==> SuffixOf(r.rest, src) && |r.rest| < |src|
  {
    match Find(src, " <- ")
    case None => Abort("no ` <- ` after an ear")
    case Some(earEnd) =>
      var fields := EarFields(src[..earEnd]);
      match FindChar(src, '\n')
      case None => Abort("no line end after a connection")
      case Some(nl) =>
        if nl < earEnd + 4 then Abort("talk slice out of bounds")
        else match TalkOf(src[earEnd + 4..nl])
          case Err(m) => Fail(m)
          case Ok(talk) => Read(src[nl + 1..], PConnection(fields.0, fields.1, fields.2, fields.3, talk))
  }

  /** `parse_connections`: the `> ` lines at the front of the text, in order. */
  function ConnectionsOf(src: string): (r: Step<seq<PConnection>>)
    ensures r.Read? ==> SuffixOf(r.rest, src) && !StartsWith(r.rest, "> ")
    ensures r.Fail? || r.Abort? ==> StartsWith(src, "> ")
    decreases |src|
  {
    if !StartsWith(src, "> ") then Read(src, [])
    else match ParseConnection(src[2..])
      case Abort(p) => Abort(p)
      case Fail(m) => Fail(m)
      case Read(rest, c) =>
        match ConnectionsOf(rest)
        case Read(rest2, cs) =>
          SuffixTrans(rest, src[2..], src);
          SuffixTrans(rest2, rest, src);
          Read(rest2, [c] + cs)
        case Fail(m) => Fail(m)
        case Abort(p) => Abort(p)
  }

  /** One `< id` line, after its `< `. */
  function ParseOutputId(src: string): (r: Step<nat>)
    ensures r.Read? ==> SuffixOf(r.rest, src) && |r.rest| < |src| && r.value < U32_LIMIT
  {
    match FindChar(src, '\n')
    case None => Abort("no line end after an output")
    case Some(nl) =>
      match IdFromStr(src[..nl])
      case Err(m) => Fail(m)
      case Ok(id) => Read(src[nl + 1..], id)
  }

  predicate AllIds(ids: seq<nat>) {
    forall k :: 0 <= k < |ids| ==> ids[k] < U32_LIMIT
  }

  /** `parse_outputs`: the `< id` lines at the front of the text, in order. */
  function OutputsOf(src: string): (r: Step<seq<nat>>)
    ensures r.Read? ==> SuffixOf(r.rest, src) && !StartsWith(r.rest, "< ")
    ensures r.Read? ==> AllIds(r.value)
    decreases |src|
  {
    if !StartsWith(src, "< ") then Read(src, [])
    else match ParseOutputId(src[2..])
      case Abort(p) => Abort(p)
      case Fail(m) => Fail(m)
      case Read(rest, id) =>
        match OutputsOf(rest)
        case Read(rest2, ids) =>
          OutputsCons(src[2..], src, rest, rest2, id, ids);
          Read(rest2, [id] + ids)
        case Fail(m) => Fail(m)
        case Abort(p) => Abort(p)
  }

  lemma {:induction false} OutputsCons(line: string, src: string, rest: string, rest2: string, id: nat, ids: seq<nat>)
    requires SuffixOf(line, src) && SuffixOf(rest, line) && SuffixOf(rest2, rest)
    requires id < U32_LIMIT && AllIds(ids)
    ensures SuffixOf(rest2, src) && AllIds([id] + ids)
  {
    SuffixTrans(rest, line, src);
    SuffixTrans(rest2, rest, src);
    forall k | 0 <= k < |[id] + ids| ensures ([id] + ids)[k] < U32_LIMIT {
      if k > 0 { assert ([id] + ids)[k] == ids[k - 1]; }
    }
  }

  /** A mixer block, after its `mixer `: identity, connections, outputs. */
  function MixerBlock(src: string): (r: Step<PMixer>)
    ensures r.Read? ==> SuffixOf(r.rest, src) && |r.rest| < |src|
  {
    match ParseIdName(src)
    case Abort(p) => Abort(p)
    case Fail(m) => Fail(m)
    case Read(rest1, idName) =>
      match ConnectionsOf(rest1)
      case Abort(p) => Abort(p)
      case Fail(m) => Fail(m)
      case Read(rest2, cs) =>
        match OutputsOf(rest2)
        case Abort(p) => Abort(p)
        case Fail(m) => Fail(m)
        case Read(rest3, outs) =>
          SuffixTrans(rest2, rest1, src);
          SuffixTrans(rest3, rest2, src);
          Read(rest3, PMixer(idName.0, idName.1, cs, outs))
  }

  /** An output block, after its `output `: model, identity, data. */
  function OutputBlock(src: string): (r: Step<POutput>)
    ensures r.Read? ==> SuffixOf(r.rest, src) && |r.rest| < |src|
  {
    match FindChar(src, ' ')
    case None => Abort("no space after an output model")
    case Some(e) =>
      match ParseIdName(src[e + 1..])
      case Abort(p) => Abort(p)
      case Fail(m) => Fail(m)
      case Read(rest1, idName) =>
        match ParseData(rest1)
        case Abort(p) => Abort(p)
        case Fail(m) => Fail(m)
        case Read(rest2, data) =>
          SuffixTrans(rest1, src[e + 1..], src);
          SuffixTrans(rest2, rest1, src);
          Read(rest2, POutput(src[..e], idName.0, idName.1, data))
  }

  /** A talker block, its model ending at the space `e`: identity, data,
      connections. */
  function TalkerBlock(src: string, e: nat): (r: Step<PTalker>)
    requires e < |src|
    ensures r.Read? ==> SuffixOf(r.rest, src) && |r.rest| < |src|
  {
    match ParseIdName(src[e + 1..])
    case Abort(p) => Abort(p)
    case Fail(m) => Fail(m)
    case Read(rest1, idName) =>
      match ParseData(rest1)
      case Abort(p) => Abort(p)
      case Fail(m) => Fail(m)
      case Read(rest2, data) =>
        match ConnectionsOf(rest2)
        case Abort(p) => Abort(p)
        case Fail(m) => Fail(m)
        case Read(rest3, cs) =>
          SuffixTrans(rest1, src[e + 1..], src);
          SuffixTrans(rest2, rest1, src);
          SuffixTrans(rest3, rest2, src);
          Read(rest3, PTalker(src[..e], idName.0, idName.1, data, cs))
  }

  /** `parse` from some point on, `band` holding the blocks read so far: a
      later block with the same identifier replaces an earlier one, so no
      identifier read so far is lost. */
  function BandFrom(src: string, band: Band): (r: Outcome<Band>)
    ensures r.Parsed? ==>
      band.talkers.Keys <= r.value.talkers.Keys && band.mixers.Keys <= r.value.mixers.Keys
      && band.outputs.Keys <= r.value.outputs.Keys
    decreases |src|
  {
    if |src| == 0 then Parsed(band)
    else if StartsWith(src, "\n") then BandFrom(src[1..], band)
    else if StartsWith(src, "mixer ") then
      match MixerBlock(src[6..])
      case Abort(p) => Aborted(p)
      case Fail(m) => Failed(m)
      case Read(rest, m) => BandFrom(rest, band.(mixers := band.mixers[m.id := m]))
    else if StartsWith(src, "output ") then
      match OutputBlock(src[7..])
      case Abort(p) => Aborted(p)
      case Fail(m) => Failed(m)
      case Read(rest, o) => BandFrom(rest, band.(outputs := band.outputs[o.id := o]))
    else match FindChar(src, ' ')
      case None => BandFrom(src[1..], band)
      case Some(e) =>
        match TalkerBlock(src, e)
        case Abort(p) => Aborted(p)
        case Fail(m) => Failed(m)
        case Read(rest, t) => BandFrom(rest, band.(talkers := band.talkers[t.id := t]))
  }

  function PrependAll<T>(front: seq<T>, r: Step<seq<T>>): Step<seq<T>> {
    match r
    case Read(rest, xs) => Read(rest, front + xs)
    case Fail(m) => Fail(m)
    case Abort(p) => Abort(p)
  }

  lemma {:induction false} PrependAllPrepend<T>(front: seq<T>, x: T, r: Step<seq<T>>)
    ensures PrependAll(front, PrependAll([x], r)) == PrependAll(front + [x], r)
  {
    if r.Read? {
      assert front + ([x] + r.value) == front + [x] + r.value;
    }
  }

  lemma {:induction false} PrependNothing<T>(r: Step<seq<T>>)
    ensures PrependAll([], r) == r
  {
    if r.Read? {
      assert [] + r.value == r.value;
    }
  }

  lemma {:induction false} ConnectionsStep(src: string)
    requires StartsWith(src, "> ") && ParseConnection(src[2..]).Read?
    ensures ConnectionsOf(src) == PrependAll([ParseConnection(src[2..]).value], ConnectionsOf(ParseConnection(src[2..]).rest))
  {
  }

  lemma {:induction false} OutputsStep(src: string)
    requires StartsWith(src, "< ") && ParseOutputId(src[2..]).Read?
    ensures OutputsOf(src) == PrependAll([ParseOutputId(src[2..]).value], OutputsOf(ParseOutputId(src[2..]).rest))
  {
  }

  /** The loop of `parse_connections`. */
  method ParseConnections(source: string) returns (r: Step<seq<PConnection>>)
    ensures r == ConnectionsOf(source)
  {
    var connections: seq<PConnection> := [];
    var src := source;
    PrependNothing(ConnectionsOf(src));
    while StartsWith(src, "> ")
      invariant ConnectionsOf(source) == PrependAll(connections, ConnectionsOf(src))
      decreases |src|
    {
      var step := ParseConnection(src[2..]);
      if !step.Read? {
        return if step.Fail? then Fail(step.msg) else Abort(step.reason);
      }
      ConnectionsStep(src);
      PrependAllPrepend(connections, step.value, ConnectionsOf(step.rest));
      connections := connections + [step.value];
      src := step.rest;
    }
    assert connections + [] == connections;
    return Read(src, connections);
  }

  /** The loop of `parse_outputs`. */
  method ParseOutputs(source: string) returns (r: Step<seq<nat>>)
    ensures r == OutputsOf(source)
  {
    var outputs: seq<nat> := [];
    var src := source;
    PrependNothing(OutputsOf(src));
    while StartsWith(src, "< ")
      invariant OutputsOf(source) == PrependAll(outputs, OutputsOf(src))
      decreases |src|
    {
      var step := ParseOutputId(src[2..]);
      if !step.Read? {
        return if step.Fail? then Fail(step.msg) else Abort(step.reason);
      }
      OutputsStep(src);
      PrependAllPrepend(outputs, step.value, OutputsOf(step.rest));
      outputs := outputs + [step.value];
      src := step.rest;
    }
    assert outputs + [] == outputs;
    return Read(src, outputs);
  }

  /** `parse`: the loop over the blocks of a band text. */
  /** The `mixer` branch of `parse`, after the kind word. */
  method ParseMixerBlock(src: string) returns (r: Step<PMixer>)
    ensures r == MixerBlock(src)
  {
    var idName := ParseIdName(src);
    if !idName.Read? {
      return if idName.Fail? then Fail(idName.msg) else Abort(idName.reason);
    }
    var connections := ParseConnections(idName.rest);
    if !connections.Read? {
      return if connections.Fail? then Fail(connections.msg) else Abort(connections.reason);
    }
    var outs := ParseOutputs(connections.rest);
    if !outs.Read? {
      return if outs.Fail? then Fail(outs.msg) else Abort(outs.reason);
    }
    return Read(outs.rest, PMixer(idName.value.0, idName.value.1, connections.value, outs.value));
  }

  /** The `output` branch of `parse`, after the kind word. */
  method ParseOutputBlock(src: string) returns (r: Step<POutput>)
    ensures r == OutputBlock(src)
  {
    var modelEnd := FindChar(src, ' ');
    if modelEnd.None? {
      return Abort("no space after an output model");
    }
    var model := src[..modelEnd.value];
    var idName := ParseIdName(src[modelEnd.value + 1..]);
    if !idName.Read? {
      return if idName.Fail? then Fail(idName.msg) else Abort(idName.reason);
    }
    var data := ParseData(idName.rest);
    if !data.Read? {
      return Abort(data.reason);
    }
    return Read(data.rest, POutput(model, idName.value.0, idName.value.1, data.value));
  }

  /** The talker branch of `parse`: the model ends at the space at `modelEnd`. */
  method ParseTalkerBlock(src: string, modelEnd: nat) returns (r: Step<PTalker>)
    requires modelEnd < |src|
    ensures r == TalkerBlock(src, modelEnd)
  {
    var model := src[..modelEnd];
    var idName := ParseIdName(src[modelEnd + 1..]);
    if !idName.Read? {
      return if idName.Fail? then Fail(idName.msg) else Abort(idName.reason);
    }
    var data := ParseData(idName.rest);
    if !data.Read? {
      return Abort(data.reason);
    }
    var connections := ParseConnections(data.rest);
    if !connections.Read? {
      return if connections.Fail? then Fail(connections.msg) else Abort(connections.reason);
    }
    return Read(connections.rest, PTalker(model, idName.value.0, idName.value.1, data.value, connections.value));
  }

  /** `parse`: reads the blocks one after another into the three maps; a
      later block with the same identifier replaces an earlier one. */
  method Parse(source: string) returns (r: Outcome<Band>)
    ensures r == BandFrom(source, EMPTY_BAND)
  {
    var talkers: map<nat, PTalker> := map[];
    var mixers: map<nat, PMixer> := map[];
    var outputs: map<nat, POutput> := map[];
    var src := source;
    while |src| > 0
      invariant BandFrom(source, EMPTY_BAND) == BandFrom(src, Band(talkers, mixers, outputs))
      decreases |src|
    {
      if StartsWith(src, "\n") {
        src := src[1..];
      } else if StartsWith(src, "mixer ") {
        var mixer := ParseMixerBlock(src[6..]);
        if !mixer.Read? {
          return if mixer.Fail? then Failed(mixer.msg) else Aborted(mixer.reason);
        }
        mixers := mixers[mixer.value.id := mixer.value];
        src := mixer.rest;
      } else if StartsWith(src, "output ") {
        var output := ParseOutputBlock(src[7..]);
        if !output.Read? {
          return if output.Fail? then Failed(output.msg) else Aborted(output.reason);
        }
        outputs := outputs[output.value.id := output.value];
        src := output.rest;
      } else if FindChar(src, ' ').Some? {
        var talker := ParseTalkerBlock(src, FindChar(src, ' ').value);
        if !talker.Read? {
          return if talker.Fail? then Failed(talker.msg) else Aborted(talker.reason);
        }
        talkers := talkers[talker.value.id := talker.value];
        src := talker.rest;
      } else {
        src := src[1..];
      }
    }
    return Parsed(Band(talkers, mixers, outputs));
  }

  // The text the reader expects, block by block.

  function TalkText(t: PTalk): string {
    match t
    case Value(lit) => lit
    case TalkerVoice(id, v) => FormatNat(id) + ":" + v
  }

  function EarText(c: PConnection): string {
    c.earTag + "." + (FormatNat(c.setIdx) + "." + (c.humTag + "." + FormatNat(c.talkIdx)))
  }

  function ConnectionBody(c: PConnection): string {
    EarText(c) + " <- " + TalkText(c.talk) + "\n"
  }

  /** A connection line as `parse_connections` reads it. */
  function ConnectionLine(c: PConnection): string {
    "> " + ConnectionBody(c)
  }

  function ConnectionLines(cs: seq<PConnection>): string {
    if |cs| == 0 then "" else ConnectionLine(cs[0]) + ConnectionLines(cs[1..])
  }

  function OutputLines(ids: seq<nat>): string {
    if |ids| == 0 then "" else "< " + (FormatNat(ids[0]) + "\n") + OutputLines(ids[1..])
  }

  function IdNameLine(id: nat, name: string): string {
    FormatNat(id) + "#" + name + "\n"
  }

  function DataText(data: Option<string>): string {
    match data
    case None => ""
    case Some(d) => "[:" + d + ":]\n"
  }

  /** A tag that the dots, spaces and line ends of a connection line
      cannot be confused with. */
  predicate IsTag(s: string) {
    '.' !in s && ' ' !in s && '\n' !in s
  }

  predicate WritableTalk(t: PTalk) {
    match t
    case Value(lit) => IsF32Literal(lit) && '\n' !in lit
    case TalkerVoice(id, v) => id < U32_LIMIT && '\n' !in v
  }

  predicate WritableConnection(c: PConnection) {
    IsTag(c.earTag) && IsTag(c.humTag) && c.setIdx < USIZE_LIMIT && c.talkIdx < USIZE_LIMIT
    && WritableTalk(c.talk)
  }

  predicate WritableConnections(cs: seq<PConnection>) {
    forall k :: 0 <= k < |cs| ==> WritableConnection(cs[k])
  }

  lemma {:induction false} DigitsHaveNo(n: nat, c: char)
    requires !IsDigit(c)
    ensures c !in FormatNat(n)
  {
    var s := FormatNat(n);
    forall i | 0 <= i < |s| ensures s[i] != c {
      assert IsDigit(s[i]);
    }
  }

  /** `parse_id_name` on a text whose first line holds a `#`. */
  lemma {:induction false} IdNameAt(src: string, h: nat, n: nat)
    requires h < n < |src| && FindChar(src, '#') == Some(h) && FindChar(src, '\n') == Some(n)
    ensures ParseIdName(src) == match IdFromStr(src[..h])
      case Err(m) => Fail(m)
      case Ok(id) => Read(src[n + 1..], (id, src[h + 1..n]))
  {
  }

  lemma {:induction false} ReadIdName(id: nat, name: string, rest: string)
    requires id < U32_LIMIT && '\n' !in name
    ensures ParseIdName(IdNameLine(id, name) + rest) == Read(rest, (id, name))
  {
    var d := FormatNat(id);
    var line := d + "#" + name;
    var src := IdNameLine(id, name) + rest;
    DigitsHaveNo(id, '\n');
    DigitsHaveNo(id, '#');
    assert '\n' !in line by {
      NoCharConcat(d + "#", name, '\n');
    }
    CutAt(line, '\n', rest);
    Assoc3(d + "#", name, "\n", rest);
    CutAt(d, '#', name + "\n" + rest);
    CutAt(d, '#', name);
    assert src[|d| + 1..|line|] == src[..|line|][|d| + 1..];
    IdFromStrFormat(id);
    IdNameAt(src, |d|, |line|);
  }

  lemma {:induction false} Assoc3(a: string, b: string, c: string, e: string)
    ensures ((a + b) + c) + e == a + ((b + c) + e)
  {
  }

  lemma {:induction false} NoCharConcat(a: string, b: string, c: char)
    requires c !in a && c !in b
    ensures c !in a + b
  {
  }

  /** A data text without a line end holds no `:]\n` before its own. */
  lemma {:induction false} DataEndNotBefore(d: string, rest: string)
    requires '\n' !in d
    ensures var src := "[:" + d + ":]\n" + rest;
      forall j | 0 <= j < |d| + 2 :: !OccursAt(src, ":]\n", j)
  {
    var a := "[:" + d;
    var src := a + ":]\n" + rest;
    forall j | 0 <= j < |a| ensures !OccursAt(src, ":]\n", j) {
      if j + 3 <= |src| {
        assert src[j..j + 3][2] == src[j + 2];
        if j + 2 < |a| {
          assert src[j + 2] == d[j];
        }
      }
    }
  }

  lemma {:induction false} ReadData(data: Option<string>, rest: string)
    requires data.Some? ==> '\n' !in data.value
    requires data.None? ==> !StartsWith(rest, "[:")
    ensures ParseData(DataText(data) + rest) == Read(rest, data)
  {
    if data.Some? {
      var d := data.value;
      var a := "[:" + d;
      var src := DataText(data) + rest;
      assert src == a + ":]\n" + rest;
      assert src[..2] == "[:";
      DataEndNotBefore(d, rest);
      assert src[|a|..|a| + 3] == ":]\n";
      FindFirst(src, ":]\n", |a|);
      assert src[2..|a|] == d;
      assert src[|a| + 3..] == rest;
    } else {
      assert DataText(data) + rest == rest;
    }
  }

  lemma {:induction false} EarFieldsOfText(tag: string, sd: string, hum: string, td: string)
    requires '.' !in tag && '.' !in sd && '.' !in hum
    ensures EarFields(tag + "." + (sd + "." + (hum + "." + td)))
         == (tag, ParseUsize(sd).GetOr(0), hum, ParseUsize(td).GetOr(0))
  {
    CutAt(tag, '.', sd + "." + (hum + "." + td));
    CutAt(sd, '.', hum + "." + td);
    CutAt(hum, '.', td);
  }

  lemma {:induction false} ReadEarFields(c: PConnection)
    requires WritableConnection(c)
    ensures EarFields(EarText(c)) == (c.earTag, c.setIdx, c.humTag, c.talkIdx)
  {
    DigitsHaveNo(c.setIdx, '.');
    EarFieldsOfText(c.earTag, FormatNat(c.setIdx), c.humTag, FormatNat(c.talkIdx));
    ParseFormatNat(c.setIdx, USIZE_LIMIT);
    ParseFormatNat(c.talkIdx, USIZE_LIMIT);
  }

  lemma {:induction false} ReadTalk(t: PTalk)
    requires WritableTalk(t)
    ensures TalkOf(TalkText(t)) == Ok(t)
  {
    if t.TalkerVoice? {
      var d := FormatNat(t.talker);
      var x := TalkText(t);
      assert x[|d|] == ':';
      ColonIsNotFloat(x);
      DigitsHaveNo(t.talker, ':');
      CutAt(d, ':', t.voice);
      IdFromStrFormat(t.talker);
    }
  }

  lemma {:induction false} TalkTextHasNoLineEnd(t: PTalk)
    requires WritableTalk(t)
    ensures '\n' !in TalkText(t)
  {
    if t.TalkerVoice? {
      DigitsHaveNo(t.talker, '\n');
    }
  }

  lemma {:induction false} ConnectionOfText(e: string, x: string, rest: string)
    requires ' ' !in e && '\n' !in e && '\n' !in x
    ensures ParseConnection(e + " <- " + x + "\n" + rest)
         == match TalkOf(x)
            case Err(m) => Fail(m)
            case Ok(t) => Read(rest, PConnection(EarFields(e).0, EarFields(e).1, EarFields(e).2, EarFields(e).3, t))
  {
    var s := e + " <- " + x + "\n" + rest;
    assert s == e + " <- " + (x + "\n" + rest);
    FindAfter(e, " <- ", x + "\n" + rest);
    var a := e + " <- " + x;
    assert '\n' !in a;
    CutAt(a, '\n', rest);
    assert s[..|e|] == e;
    assert s[|e| + 4..|a|] == a[|e| + 4..] == x;
  }

  /** A connection line reads back as the connection it was written from. */
  lemma {:induction false} ReadConnection(c: PConnection, rest: string)
    requires WritableConnection(c)
    ensures ParseConnection(ConnectionBody(c) + rest) == Read(rest, c)
  {
    DigitsHaveNo(c.setIdx, ' ');
    DigitsHaveNo(c.talkIdx, ' ');
    DigitsHaveNo(c.setIdx, '\n');
    DigitsHaveNo(c.talkIdx, '\n');
    TalkTextHasNoLineEnd(c.talk);
    ConnectionOfText(EarText(c), TalkText(c.talk), rest);
    ReadEarFields(c);
    ReadTalk(c.talk);
  }

  /** The text after a two-character line head. */
  lemma {:induction false} LineStart(head: string, body: string, more: string)
    requires |head| == 2
    ensures StartsWith(head + body + more, head)
    ensures (head + body + more)[2..] == body + more
  {
    var s := head + body + more;
    assert s[..2] == head;
  }

  /** One connection line in front of a text adds its connection in front. */
  lemma {:induction false} ReadConnectionLine(c: PConnection, more: string)
    requires WritableConnection(c)
    ensures ConnectionsOf(ConnectionLine(c) + more) == PrependAll([c], ConnectionsOf(more))
  {
    var s := ConnectionLine(c) + more;
    LineStart("> ", ConnectionBody(c), more);
    ReadConnection(c, more);
    ConnectionsStep(s);
  }

  /** A connection line in front of lines that read back reads back too. */
  lemma {:induction false} ReadMoreConnections(c: PConnection, cs: seq<PConnection>, rest: string)
    requires WritableConnection(c)
    requires ConnectionsOf(ConnectionLines(cs) + rest) == Read(rest, cs)
    ensures ConnectionsOf(ConnectionLines([c] + cs) + rest) == Read(rest, [c] + cs)
  {
    var tail := ConnectionLines(cs);
    assert ([c] + cs)[1..] == cs;
    assert ConnectionLines([c] + cs) == ConnectionLine(c) + tail;
    Assoc(ConnectionLine(c), tail, rest);
    ReadConnectionLine(c, tail + rest);
  }

  /** Connection lines read back as their connections, in order. */
  lemma {:induction false} ReadConnections(cs: seq<PConnection>, rest: string)
    requires WritableConnections(cs) && !StartsWith(rest, "> ")
    ensures ConnectionsOf(ConnectionLines(cs) + rest) == Read(rest, cs)
  {
    if |cs| == 0 {
      assert ConnectionLines(cs) + rest == rest;
    } else {
      assert WritableConnection(cs[0]);
      assert WritableConnections(cs[1..]) by {
        forall k | 0 <= k < |cs[1..]| ensures WritableConnection(cs[1..][k]) {
          assert cs[1..][k] == cs[k + 1];
        }
      }
      ReadConnections(cs[1..], rest);
      ReadMoreConnections(cs[0], cs[1..], rest);
      assert [cs[0]] + cs[1..] == cs;
    }
  }

  lemma {:induction false} OutputIdOfText(d: string, rest: string)
    requires '\n' !in d
    ensures ParseOutputId(d + "\n" + rest) == match IdFromStr(d) case Err(m) => Fail(m) case Ok(id) => Read(rest, id)
  {
    CutAt(d, '\n', rest);
  }

  /** One output line in front of a text adds its identifier in front. */
  lemma {:induction false} ReadOutputLine(id: nat, more: string)
    requires id < U32_LIMIT
    ensures OutputsOf("< " + (FormatNat(id) + "\n") + more) == PrependAll([id], OutputsOf(more))
  {
    var d := FormatNat(id);
    var s := "< " + (d + "\n") + more;
    LineStart("< ", d + "\n", more);
    DigitsHaveNo(id, '\n');
    OutputIdOfText(d, more);
    IdFromStrFormat(id);
    OutputsStep(s);
  }

  /** Output lines read back as their identifiers, in order. */
  lemma {:induction false} ReadOutputs(ids: seq<nat>, rest: string)
    requires AllIds(ids)
    requires !StartsWith(rest, "< ")
    ensures OutputsOf(OutputLines(ids) + rest) == Read(rest, ids)
  {
    if |ids| == 0 {
      assert OutputLines(ids) + rest == rest;
    } else {
      var tail := OutputLines(ids[1..]);
      Assoc("< " + (FormatNat(ids[0]) + "\n"), tail, rest);
      ReadOutputLine(ids[0], tail + rest);
      ReadOutputs(ids[1..], rest);
      assert [ids[0]] + ids[1..] == ids;
    }
  }

  // Whole blocks, as the band writer lays them out: each starts on a fresh line.

  /** A model or kind word: it ends at the first space of its line. */
  predicate IsWord(s: string) {
    ' ' !in s && '\n' !in s
  }

  predicate WritableTalker(t: PTalker) {
    IsWord(t.model) && t.model != "mixer" && t.model != "output"
    && t.id < U32_LIMIT && '\n' !in t.name
    && (t.data.Some? ==> '\n' !in t.data.value)
    && WritableConnections(t.connections)
  }

  predicate WritableMixer(m: PMixer) {
    m.id < U32_LIMIT && '\n' !in m.name
    && WritableConnections(m.connections)
    && AllIds(m.outputs)
  }

  predicate WritableOutput(o: POutput) {
    IsWord(o.model) && o.id < U32_LIMIT && '\n' !in o.name
    && (o.data.Some? ==> '\n' !in o.data.value)
  }

  function TalkerText(t: PTalker): string {
    "\n" + (t.model + " " + (IdNameLine(t.id, t.name) + (DataText(t.data) + ConnectionLines(t.connections))))
  }

  function MixerText(m: PMixer): string {
    "\n" + ("mixer " + (IdNameLine(m.id, m.name) + (ConnectionLines(m.connections) + OutputLines(m.outputs))))
  }

  function OutputText(o: POutput): string {
    "\n" + ("output " + (o.model + " " + (IdNameLine(o.id, o.name) + DataText(o.data))))
  }

  /** A text that a block may be followed by: the end, or a fresh line. */
  predicate BlockBoundary(rest: string) {
    rest == "" || rest[0] == '\n'
  }

  lemma {:induction false} BoundaryHeads(rest: string)
    requires BlockBoundary(rest)
    ensures !StartsWith(rest, "> ") && !StartsWith(rest, "< ") && !StartsWith(rest, "[:")
  {
    if |rest| >= 2 {
      assert rest[..2][0] == '\n';
    }
  }

  lemma {:induction false} Assoc(a: string, b: string, c: string)
    ensures (a + b) + c == a + (b + c)
  {
  }

  /** A word followed by a space starts with `w + " "` only if it is `w`. */
  lemma {:induction false} WordHead(word: string, w: string, rest: string)
    requires ' ' !in word && ' ' !in w
    ensures StartsWith(word + " " + rest, w + " ") ==> word == w
  {
    var s := word + " " + rest;
    if StartsWith(s, w + " ") {
      assert s[|w|] == (w + " ")[|w|] == ' ';
      assert |word| <= |w|;
      assert s[|word|] == ' ';
      assert word == s[..|w|] == (w + " ")[..|w|] == w;
    }
  }

  lemma {:induction false} NotKindHead(word: string, rest: string)
    requires IsWord(word) && word != "mixer" && word != "output"
    ensures !StartsWith(word + " " + rest, "mixer ") && !StartsWith(word + " " + rest, "output ")
  {
    WordHead(word, "mixer", rest);
    WordHead(word, "output", rest);
    assert "mixer" + " " == "mixer ";
    assert "output" + " " == "output ";
  }

  lemma {:induction false} ConnectionLinesHead(cs: seq<PConnection>, rest: string)
    requires BlockBoundary(rest)
    ensures !StartsWith(ConnectionLines(cs) + rest, "[:")
    ensures !StartsWith(ConnectionLines(cs) + rest, "< ")
  {
    if |cs| > 0 {
      assert (ConnectionLines(cs) + rest)[0] == '>';
    } else {
      assert ConnectionLines(cs) + rest == rest;
    }
  }

  lemma {:induction false} OutputLinesHead(ids: seq<nat>, rest: string)
    requires BlockBoundary(rest)
    ensures !StartsWith(OutputLines(ids) + rest, "> ")
  {
    if |ids| > 0 {
      assert (OutputLines(ids) + rest)[0] == '<';
    } else {
      assert OutputLines(ids) + rest == rest;
    }
  }

  lemma {:induction false} ReadTalkerBlock(t: PTalker, rest: string)
    requires WritableTalker(t) && BlockBoundary(rest)
    ensures var src := t.model + " " + (IdNameLine(t.id, t.name) + (DataText(t.data) + (ConnectionLines(t.connections) + rest)));
      TalkerBlock(src, |t.model|) == Read(rest, t)
  {
    var lines := ConnectionLines(t.connections) + rest;
    var w := DataText(t.data) + lines;
    CutAt(t.model, ' ', IdNameLine(t.id, t.name) + w);
    ReadIdName(t.id, t.name, w);
    ConnectionLinesHead(t.connections, rest);
    ReadData(t.data, lines);
    BoundaryHeads(rest);
    ReadConnections(t.connections, rest);
  }

  lemma {:induction false} BandFromNewLine(src: string, band: Band)
    requires StartsWith(src, "\n")
    ensures BandFrom(src, band) == BandFrom(src[1..], band)
  {
  }

  lemma {:induction false} BandFromTalker(src: string, band: Band, e: nat, rest: string, t: PTalker)
    requires |src| > 0 && !StartsWith(src, "\n") && !StartsWith(src, "mixer ") && !StartsWith(src, "output ")
    requires FindChar(src, ' ') == Some(e) && TalkerBlock(src, e) == Read(rest, t)
    ensures BandFrom(src, band) == BandFrom(rest, band.(talkers := band.talkers[t.id := t]))
  {
  }

  lemma {:induction false} BandFromMixer(src: string, band: Band, rest: string, m: PMixer)
    requires StartsWith(src, "mixer ") && MixerBlock(src[6..]) == Read(rest, m)
    ensures BandFrom(src, band) == BandFrom(rest, band.(mixers := band.mixers[m.id := m]))
  {
    HeadOfStart(src, "mixer ");
    OtherHead(src, "\n");
  }

  lemma {:induction false} BandFromOutput(src: string, band: Band, rest: string, o: POutput)
    requires StartsWith(src, "output ") && OutputBlock(src[7..]) == Read(rest, o)
    ensures BandFrom(src, band) == BandFrom(rest, band.(outputs := band.outputs[o.id := o]))
  {
    HeadOfStart(src, "output ");
    OtherHead(src, "\n");
    OtherHead(src, "mixer ");
  }

  lemma {:induction false} BandFromTalkerAborts(src: string, band: Band, e: nat)
    requires |src| > 0 && !StartsWith(src, "\n") && !StartsWith(src, "mixer ") && !StartsWith(src, "output ")
    requires FindChar(src, ' ') == Some(e) && TalkerBlock(src, e).Abort?
    ensures BandFrom(src, band).Aborted?
  {
  }

  /** A talker block is read back as the talker, replacing any earlier entry
      with the same identifier. */
  lemma {:induction false} ReadTalkerText(t: PTalker, rest: string, band: Band)
    requires WritableTalker(t) && BlockBoundary(rest)
    ensures BandFrom(TalkerText(t) + rest, band) == BandFrom(rest, band.(talkers := band.talkers[t.id := t]))
  {
    var z := IdNameLine(t.id, t.name) + (DataText(t.data) + (ConnectionLines(t.connections) + rest));
    var src := t.model + " " + z;
    assert TalkerText(t) + rest == "\n" + src by {
      Assoc(DataText(t.data), ConnectionLines(t.connections), rest);
      Assoc(IdNameLine(t.id, t.name), DataText(t.data) + ConnectionLines(t.connections), rest);
      Assoc(t.model + " ", IdNameLine(t.id, t.name) + (DataText(t.data) + ConnectionLines(t.connections)), rest);
      Assoc("\n", t.model + " " + (IdNameLine(t.id, t.name) + (DataText(t.data) + ConnectionLines(t.connections))), rest);
    }
    NewLineFirst(src);
    BandFromNewLine("\n" + src, band);
    NotKindHead(t.model, z);
    CutAt(t.model, ' ', z);
    assert src[0] != '\n' by {
      if |t.model| > 0 { assert src[0] == t.model[0]; }
    }
    OtherHead(src, "\n");
    ReadTalkerBlock(t, rest);
    BandFromTalker(src, band, |t.model|, rest, t);
  }

  lemma {:induction false} NewLineFirst(src: string)
    ensures StartsWith("\n" + src, "\n") && ("\n" + src)[1..] == src
  {
    assert ("\n" + src)[..1] == "\n";
  }

  /** A mixer block is read back as the mixer. */
  lemma {:induction false} ReadMixerText(m: PMixer, rest: string, band: Band)
    requires WritableMixer(m) && BlockBoundary(rest)
    ensures BandFrom(MixerText(m) + rest, band) == BandFrom(rest, band.(mixers := band.mixers[m.id := m]))
  {
    var outs := OutputLines(m.outputs) + rest;
    var lines := ConnectionLines(m.connections) + outs;
    var z := IdNameLine(m.id, m.name) + lines;
    var src := "mixer " + z;
    assert MixerText(m) + rest == "\n" + src by {
      Assoc(ConnectionLines(m.connections), OutputLines(m.outputs), rest);
      Assoc(IdNameLine(m.id, m.name), ConnectionLines(m.connections) + OutputLines(m.outputs), rest);
      Assoc("mixer ", IdNameLine(m.id, m.name) + (ConnectionLines(m.connections) + OutputLines(m.outputs)), rest);
      Assoc("\n", "mixer " + (IdNameLine(m.id, m.name) + (ConnectionLines(m.connections) + OutputLines(m.outputs))), rest);
    }
    NewLineFirst(src);
    BandFromNewLine("\n" + src, band);
    assert src[..6] == "mixer " && src[6..] == z;
    ReadIdName(m.id, m.name, lines);
    OutputLinesHead(m.outputs, rest);
    BoundaryHeads(rest);
    ReadConnections(m.connections, outs);
    ReadOutputs(m.outputs, rest);
    assert MixerBlock(z) == Read(rest, m);
    BandFromMixer(src, band, rest, m);
  }

  /** An output block is read back as the output. */
  lemma {:induction false} ReadOutputText(o: POutput, rest: string, band: Band)
    requires WritableOutput(o) && BlockBoundary(rest)
    ensures BandFrom(OutputText(o) + rest, band) == BandFrom(rest, band.(outputs := band.outputs[o.id := o]))
  {
    var w := DataText(o.data) + rest;
    var z := o.model + " " + (IdNameLine(o.id, o.name) + w);
    var src := "output " + z;
    assert OutputText(o) + rest == "\n" + src by {
      Assoc(IdNameLine(o.id, o.name), DataText(o.data), rest);
      Assoc(o.model + " ", IdNameLine(o.id, o.name) + DataText(o.data), rest);
      Assoc("output ", o.model + " " + (IdNameLine(o.id, o.name) + DataText(o.data)), rest);
      Assoc("\n", "output " + (o.model + " " + (IdNameLine(o.id, o.name) + DataText(o.data))), rest);
    }
    NewLineFirst(src);
    BandFromNewLine("\n" + src, band);
    assert src[..7] == "output " && src[7..] == z;
    CutAt(o.model, ' ', IdNameLine(o.id, o.name) + w);
    ReadIdName(o.id, o.name, w);
    BoundaryHeads(rest);
    ReadData(o.data, rest);
    assert OutputBlock(z) == Read(rest, o);
    BandFromOutput(src, band, rest, o);
  }

  // A whole band text.

  datatype Block = TalkerEntry(talker: PTalker) | MixerEntry(mixer: PMixer) | OutputEntry(output: POutput)

  function BlockText(b: Block): string {
    match b
    case TalkerEntry(t) => TalkerText(t)
    case MixerEntry(m) => MixerText(m)
    case OutputEntry(o) => OutputText(o)
  }

  predicate WritableBlock(b: Block) {
    match b
    case TalkerEntry(t) => WritableTalker(t)
    case MixerEntry(m) => WritableMixer(m)
    case OutputEntry(o) => WritableOutput(o)
  }

  function BandText(blocks: seq<Block>): string {
    if |blocks| == 0 then "" else BlockText(blocks[0]) + BandText(blocks[1..])
  }

  /** The band after one more block: its entry replaces any earlier one with
      the same identifier in the same map. */
  function Enter(band: Band, b: Block): Band {
    match b
    case TalkerEntry(t) => band.(talkers := band.talkers[t.id := t])
    case MixerEntry(m) => band.(mixers := band.mixers[m.id := m])
    case OutputEntry(o) => band.(outputs := band.outputs[o.id := o])
  }

  function EnterAll(band: Band, blocks: seq<Block>): Band
    decreases |blocks|
  {
    if |blocks| == 0 then band else EnterAll(Enter(band, blocks[0]), blocks[1..])
  }

  lemma {:induction false} BandTextBoundary(blocks: seq<Block>)
    ensures BlockBoundary(BandText(blocks))
  {
  }

  lemma {:induction false} ReadBlockText(b: Block, rest: string, band: Band)
    requires WritableBlock(b) && BlockBoundary(rest)
    ensures BandFrom(BlockText(b) + rest, band) == BandFrom(rest, Enter(band, b))
  {
    match b
    case TalkerEntry(t) => ReadTalkerText(t, rest, band);
    case MixerEntry(m) => ReadMixerText(m, rest, band);
    case OutputEntry(o) => ReadOutputText(o, rest, band);
  }

  /** Reading a band text enters its blocks one after the other. */
  lemma {:induction false} ReadBandText(blocks: seq<Block>, band: Band)
    requires forall k :: 0 <= k < |blocks| ==> WritableBlock(blocks[k])
    ensures BandFrom(BandText(blocks), band) == Parsed(EnterAll(band, blocks))
  {
    if |blocks| > 0 {
      var rest := BandText(blocks[1..]);
      BandTextBoundary(blocks[1..]);
      ReadBlockText(blocks[0], rest, band);
      ReadBandText(blocks[1..], Enter(band, blocks[0]));
    }
  }

  /** `parse` gives back the talkers, mixers and outputs a band text was
      written from, the last of several with one identifier winning. */
  method ReadBack(blocks: seq<Block>) returns (r: Outcome<Band>)
    requires forall k :: 0 <= k < |blocks| ==> WritableBlock(blocks[k])
    ensures r == Parsed(EnterAll(EMPTY_BAND, blocks))
  {
    r := Parse(BandText(blocks));
    ReadBandText(blocks, EMPTY_BAND);
  }

  // The connection lines `Band::serialize` writes (session/src/band.rs,
  // `talk_dep_line`): `> ear.set.hum talk`, with no talk index and a single
  // space where the reader looks for ` <- `.

  function SavedTalkText(t: PTalk): string {
    match t
    case Value(lit) => lit
    case TalkerVoice(id, v) => if v == "" then FormatNat(id) else FormatNat(id) + ":" + v
  }

  function SavedConnectionLine(c: PConnection): string {
    "> " + (c.earTag + "." + FormatNat(c.setIdx) + "." + c.humTag + " " + SavedTalkText(c.talk) + "\n")
  }

  /** A text with a single space holds no ` <- `. */
  lemma {:induction false} OneSpaceNoArrow(x: string, t: string)
    requires ' ' !in x && ' ' !in t
    ensures forall j :: 0 <= j ==> !OccursAt(x + " " + t, " <- ", j)
  {
    var s := x + " " + t;
    forall j | 0 <= j ensures !OccursAt(s, " <- ", j) {
      if j + 4 <= |s| {
        var w := s[j..j + 4];
        if j < |x| {
          assert w[0] == x[j] && x[j] in x;
          assert w[0] != " <- "[0];
        } else if j == |x| {
          assert w[3] == t[2] && t[2] in t;
          assert w[3] != " <- "[3];
        } else {
          assert w[0] == t[j - |x| - 1] && t[j - |x| - 1] in t;
          assert w[0] != " <- "[0];
        }
      }
    }
  }

  /** The text `Band::serialize` writes for a band of one talker, without
      data, that has one connection. */
  function SavedOneConnectionBand(t: PTalker, c: PConnection): string {
    "\n" + (t.model + " " + (IdNameLine(t.id, t.name) + SavedConnectionLine(c)))
  }

  /** The reader panics on any connection the writer saved: it looks for a
      ` <- ` that the saved line does not hold. */
  lemma {:induction false} SavedConnectionDoesNotReadBack(t: PTalker, c: PConnection, band: Band)
    requires WritableTalker(t) && t.data.None? && WritableConnection(c)
    requires ' ' !in SavedTalkText(c.talk)
    ensures BandFrom(SavedOneConnectionBand(t, c), band).Aborted?
  {
    var line := SavedConnectionLine(c);
    var z := IdNameLine(t.id, t.name) + line;
    CutAt(t.model, ' ', z);
    ReadIdName(t.id, t.name, line);
    OtherHead(line, "[:");
    SavedLineAborts(c);
    ConnectionAbortsTalker(t.model + " " + z, |t.model|, line, (t.id, t.name));
    TalkerAbortsBand(t.model, z, band);
  }

  lemma {:induction false} TalkerAbortsBand(model: string, z: string, band: Band)
    requires IsWord(model) && model != "mixer" && model != "output"
    requires TalkerBlock(model + " " + z, |model|).Abort?
    ensures BandFrom("\n" + (model + " " + z), band).Aborted?
  {
    var src := model + " " + z;
    NewLineFirst(src);
    BandFromNewLine("\n" + src, band);
    NotKindHead(model, z);
    CutAt(model, ' ', z);
    assert src[0] != '\n' by {
      if |model| > 0 { assert src[0] == model[0]; }
    }
    OtherHead(src, "\n");
    BandFromTalkerAborts(src, band, |model|);
  }

  /** A talker block without data whose first connection line aborts, aborts. */
  lemma {:induction false} ConnectionAbortsTalker(src: string, e: nat, line: string, idName: (nat, string))
    requires e < |src| && ParseIdName(src[e + 1..]) == Read(line, idName)
    requires !StartsWith(line, "[:") && ConnectionsOf(line).Abort?
    ensures TalkerBlock(src, e).Abort?
  {
    assert ParseData(line) == Read(line, None);
  }

  lemma {:induction false} SavedLineAborts(c: PConnection)
    requires IsTag(c.earTag) && IsTag(c.humTag) && ' ' !in SavedTalkText(c.talk)
    ensures ConnectionsOf(SavedConnectionLine(c)).Abort?
  {
    var line := SavedConnectionLine(c);
    var x := c.earTag + "." + FormatNat(c.setIdx) + "." + c.humTag;
    var tt := SavedTalkText(c.talk);
    DigitsHaveNo(c.setIdx, ' ');
    assert ' ' !in x;
    assert line[..2] == "> " && line[2..] == x + " " + tt + "\n";
    Assoc(x + " ", tt, "\n");
    OneSpaceNoArrow(x, tt + "\n");
  }

  /** A talker voice with an empty tag is saved as a bare identifier, which
      the reader takes for a constant. */
  lemma {:induction false} BareIdReadsAsConstant(id: nat)
    ensures TalkOf(SavedTalkText(TalkerVoice(id, ""))) == Ok(Value(FormatNat(id)))
  {
    DigitsAreFloat(FormatNat(id));
  }
}
