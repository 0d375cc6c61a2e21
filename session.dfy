/** The older session file format (src/session.rs). A session is a list of
    lines: a module line `kind mref [feature]` opens a module, an attribute
    line `> tag talker[:voice]` adds to the module above it, a line whose
    first word starts with `/` is a comment. Modules are filed by kind under
    their `mref`, the `id#name` text that names them. */
module Session {
  import opened Wrappers
  import opened Numeric
  import opened Strs

  const TRACK_KIND := "track"
  const MIXER_KIND := "mixer"
  const OUTPUT_KIND := "output"

  /** The two separators of the words of a line. */
  predicate IsBlank(c: char) { c == ' ' || c == '\t' }

  function Blanked(name: string): string { ReplaceWhere(name, IsBlank, '_') }

  /** `mref`: `id#name`, blanks of the name replaced by `_`, so that an
      mref is always a single word of its line. */
  function Mref(id: nat, name: string): (r: string)
    ensures forall j :: 0 <= j < |r| ==> !IsBlank(r[j])
  {
    var d := FormatNat(id);
    var r := d + "#" + Blanked(name);
    assert forall j :: 0 <= j < |d| ==> IsDigit(r[j]);
    r
  }

  /** `name_from_mref`: the text after the `#` of a two-piece mref, or the
      whole mref. */
  function NameFromMref(mref: string): (r: string)
    ensures r == mref || '#' !in r
  {
    var parts := Split(mref, '#');
    if |parts| == 2 then parts[1] else mref
  }

  /** `id_from_mref`: the text before the first `#` as a `u32`, or an error
      naming the mref and the reason. */
  function IdFromMref(mref: string): (r: Result<nat>)
    ensures r.Ok? ==> r.value < U32_LIMIT
    ensures r.Err? ==> StartsWith(r.msg, "Failed to get id from mref " + mref + " : ")
  {
    var parts := Split(mref, '#');
    match ParseU32(parts[0])
    case Some(id) => Ok(id)
    case None =>
      var head := "Failed to get id from mref " + mref + " : ";
      var msg := head + UnsignedErrorText(parts[0], U32_LIMIT) + "!";
      assert msg[..|head|] == head;
      Err(msg)
  }

  /** An mref reads back as its identifier and its blank-free name, for a name
      without `#`. */
  lemma {:induction false} MrefRoundTrip(id: nat, name: string)
    requires id < U32_LIMIT && '#' !in name
    ensures IdFromMref(Mref(id, name)) == Ok(id)
    ensures NameFromMref(Mref(id, name)) == Blanked(name)
  {
    var d := FormatNat(id);
    var b := Blanked(name);
    assert '#' !in b by {
      forall j | 0 <= j < |b| ensures b[j] != '#' {
        assert name[j] in name;
      }
    }
    DigitsHaveNoHash(id);
    SplitCut(d, '#', b);
    SplitNone(b, '#');
    ParseFormatNat(id, U32_LIMIT);
  }

  /** A name holding a `#` makes an mref of three pieces or more, whose name
      reads back as the whole mref. */
  lemma {:induction false} HashInNameKeepsMref(id: nat, name: string)
    requires '#' in name
    ensures NameFromMref(Mref(id, name)) == Mref(id, name)
  {
    var d := FormatNat(id);
    var b := Blanked(name);
    var k :| 0 <= k < |name| && name[k] == '#';
    assert b[k] == '#';
    assert b[k] in b;
    DigitsHaveNoHash(id);
    SplitCut(d, '#', b);
    assert FindChar(b, '#').Some?;
    assert |Split(b, '#')| >= 2;
  }

  lemma {:induction false} DigitsHaveNoHash(id: nat)
    ensures '#' !in FormatNat(id)
  {
    var d := FormatNat(id);
    forall j | 0 <= j < |d| ensures d[j] != '#' {
      assert IsDigit(d[j]);
    }
  }

  // Modules and their filing.

  datatype Attribut = Attribut(tag: string, talker: string, voice: string)

  datatype Module = Module(kind: string, mref: string, feature: string, attributs: seq<Attribut>)

  /** The module in hand before the first module line. */
  const NO_MODULE := Module("", "", "", [])

  /** The four maps `make_decs` fills: talkers, tracks, mixers, outputs. */
  datatype Decs = Decs(talkers: map<string, Module>, tracks: map<string, Module>,
                       mixers: map<string, Module>, outputs: map<string, Module>)

  const NO_DECS := Decs(map[], map[], map[], map[])

  datatype Shelf = Talkers | Tracks | Mixers | Outputs

  /** The map a module of this kind goes to: every kind that is not a
      track, mixer or output is a talker model. */
  function ShelfOf(kind: string): Shelf {
    if kind == TRACK_KIND then Tracks
    else if kind == MIXER_KIND then Mixers
    else if kind == OUTPUT_KIND then Outputs
    else Talkers
  }

  function Get(d: Decs, s: Shelf): map<string, Module> {
    match s
    case Talkers => d.talkers
    case Tracks => d.tracks
    case Mixers => d.mixers
    case Outputs => d.outputs
  }

  /** `tidy_decs`: a finished module goes into the map of its kind under its
      mref, replacing a module filed there with the same mref; the other
      maps are unchanged; a module of empty kind is dropped. */
  function Tidy(m: Module, d: Decs): (r: Decs)
    ensures m.kind == "" ==> r == d
    ensures m.kind != "" ==> Get(r, ShelfOf(m.kind)) == Get(d, ShelfOf(m.kind))[m.mref := m]
    ensures m.kind != "" ==> forall s :: s != ShelfOf(m.kind) ==> Get(r, s) == Get(d, s)
  {
    if m.kind == "" then d
    else if m.kind == TRACK_KIND then d.(tracks := d.tracks[m.mref := m])
    else if m.kind == MIXER_KIND then d.(mixers := d.mixers[m.mref := m])
    else if m.kind == OUTPUT_KIND then d.(outputs := d.outputs[m.mref := m])
    else d.(talkers := d.talkers[m.mref := m])
  }

  // Reading the lines.

  /** The words of a line: trimmed, then split at every space and tab. */
  function Words(line: string): (r: seq<string>)
    ensures |r| >= 1
  {
    SplitWhere(Trim(line), IsBlank)
  }

  /** What `make_decs` carries from line to line. */
  datatype ScanState = ScanState(current: Module, decs: Decs)

  /** A line that changes nothing: a comment, or a line of fewer than two words. */
  predicate Ignored(line: string) {
    var w := Words(line);
    (|w[0]| > 0 && w[0][0] == '/') || |w| < 2
  }

  /** One turn of the loop of `make_decs`. */
  function LineStep(line: string, st: ScanState): (r: Result<ScanState>)
    ensures Ignored(line) ==> r == Ok(st)
    ensures r.Err? ==> st.current.kind == "" && Words(line)[0] == ">"
  {
    var w := Words(line);
    if |w[0]| > 0 && w[0][0] == '/' then Ok(st)
    else if |w| >= 3 && w[0] == ">" then
      var parts := Split(w[2], ':');
      var voice := if |parts| >= 2 then parts[1] else "";
      if st.current.kind == "" then
        Err("Found module attribut " + w[1] + " " + w[2] + " before module!")
      else
        Ok(st.(current := st.current.(attributs := st.current.attributs + [Attribut(w[1], parts[0], voice)])))
    else if |w| >= 2 then
      Ok(ScanState(Module(w[0], w[1], if |w| >= 3 then w[2] else "", []), Tidy(st.current, st.decs)))
    else Ok(st)
  }

  /** The loop of `make_decs` from a state, and the final `tidy_decs`. */
  function Scan(lines: seq<string>, st: ScanState): Result<Decs>
    decreases |lines|
  {
    if |lines| == 0 then Ok(Tidy(st.current, st.decs))
    else match LineStep(lines[0], st)
      case Err(m) => Err(m)
      case Ok(next) => Scan(lines[1..], next)
  }

  /** The loop fails only on an attribute line. */
  lemma {:induction false} ScanFailsOnlyOnAttribut(lines: seq<string>, st: ScanState)
    ensures Scan(lines, st).Err? ==> exists k :: 0 <= k < |lines| && Words(lines[k])[0] == ">"
    decreases |lines|
  {
    if |lines| > 0 {
      match LineStep(lines[0], st)
      case Err(m) =>
      case Ok(next) =>
        ScanFailsOnlyOnAttribut(lines[1..], next);
        assert forall k :: 0 <= k < |lines| - 1 ==> lines[1..][k] == lines[k + 1];
    }
  }

  /** `make_decs` from no module and empty maps: no lines read as empty
      maps, and only an attribute line can make it fail. */
  function DecsOf(lines: seq<string>): (r: Result<Decs>)
    ensures |lines| == 0 ==> r == Ok(NO_DECS)
    ensures r.Err? ==> exists k :: 0 <= k < |lines| && Words(lines[k])[0] == ">"
  {
    ScanFailsOnlyOnAttribut(lines, ScanState(NO_MODULE, NO_DECS));
    Scan(lines, ScanState(NO_MODULE, NO_DECS))
  }

  /** `make_decs`. */
  method MakeDecs(lines: seq<string>) returns (r: Result<Decs>)
    ensures r == DecsOf(lines)
  {
    var current := NO_MODULE;
    var decs := NO_DECS;
    for i := 0 to |lines|
      invariant DecsOf(lines) == Scan(lines[i..], ScanState(current, decs))
    {
      assert lines[i..][1..] == lines[i + 1..];
      var words := Words(lines[i]);
      if |words[0]| > 0 && words[0][0] == '/' {
      } else if |words| >= 3 && words[0] == ">" {
        var parts := Split(words[2], ':');
        var voice := if |parts| >= 2 then parts[1] else "";
        if current.kind == "" {
          return Err("Found module attribut " + words[1] + " " + words[2] + " before module!");
        }
        current := current.(attributs := current.attributs + [Attribut(words[1], parts[0], voice)]);
      } else if |words| >= 2 {
        decs := Tidy(current, decs);
        current := Module(words[0], words[1], if |words| >= 3 then words[2] else "", []);
      }
    }
    return Ok(Tidy(current, decs));
  }

  /** Comment lines and lines of fewer than two words may be dropped from a
      session, anywhere, without changing what it reads as. */
  function Kept(lines: seq<string>): (r: seq<string>)
    ensures |r| <= |lines|
    ensures forall k :: 0 <= k < |r| ==> !Ignored(r[k])
  {
    if |lines| == 0 then []
    else if Ignored(lines[0]) then Kept(lines[1..])
    else [lines[0]] + Kept(lines[1..])
  }

  lemma {:induction false} ScanIgnoresComments(lines: seq<string>, st: ScanState)
    ensures Scan(lines, st) == Scan(Kept(lines), st)
    decreases |lines|
  {
    if |lines| > 0 {
      var k := Kept(lines);
      if Ignored(lines[0]) {
        ScanIgnoresComments(lines[1..], st);
      } else {
        match LineStep(lines[0], st)
        case Err(m) =>
        case Ok(next) =>
          assert k[0] == lines[0] && k[1..] == Kept(lines[1..]);
          ScanIgnoresComments(lines[1..], next);
      }
    }
  }

  // The lines `save` writes for a module.

  /** A word of a module line: not empty, no white space. */
  predicate IsWord(w: string) {
    |w| > 0 && forall j :: 0 <= j < |w| ==> !IsWhitespace(w[j])
  }

  predicate WritableAttribut(a: Attribut) {
    IsWord(a.tag) && IsWord(a.talker) && ':' !in a.talker
    && (a.voice != "" ==> IsWord(a.voice) && ':' !in a.voice)
  }

  predicate WritableModule(m: Module) {
    IsWord(m.kind) && m.kind != ">" && m.kind[0] != '/' && IsWord(m.mref)
    && (m.feature != "" ==> IsWord(m.feature))
    && forall k :: 0 <= k < |m.attributs| ==> WritableAttribut(m.attributs[k])
  }

  /** `talk_dep_line`: the voice after a `:`, left out when it is empty. */
  function TalkText(a: Attribut): string {
    if a.voice == "" then a.talker else a.talker + ":" + a.voice
  }

  function AttributLine(a: Attribut): string {
    ">" + " " + a.tag + " " + TalkText(a)
  }

  function AttributLines(attributs: seq<Attribut>): seq<string> {
    if |attributs| == 0 then [] else [AttributLine(attributs[0])] + AttributLines(attributs[1..])
  }

  /** The module line, after the empty line that `save` writes before it. */
  function HeadLine(m: Module): string {
    m.kind + " " + m.mref + " " + m.feature
  }

  function ModuleLines(m: Module): seq<string> {
    ["", HeadLine(m)] + AttributLines(m.attributs)
  }

  function SessionLines(modules: seq<Module>): seq<string> {
    if |modules| == 0 then [] else ModuleLines(modules[0]) + SessionLines(modules[1..])
  }

  /** The maps after filing the module in hand and then `modules` in order. */
  function Filed(m: Module, d: Decs, modules: seq<Module>): Decs
    decreases |modules|
  {
    if |modules| == 0 then Tidy(m, d) else Filed(modules[0], Tidy(m, d), modules[1..])
  }

  lemma {:induction false} NoBlank(w: string)
    requires IsWord(w)
    ensures forall j :: 0 <= j < |w| ==> !IsBlank(w[j])
  {
  }

  /** Two words with a space between them split into the two. */
  lemma {:induction false} SplitTwo(a: string, b: string)
    requires IsWord(a) && IsWord(b)
    ensures SplitWhere(a + " " + b, IsBlank) == [a, b]
  {
    NoBlank(a);
    NoBlank(b);
    SplitWhereCut(a, ' ', b, IsBlank);
    SplitWhereNone(b, IsBlank);
  }

  lemma {:induction false} WordsOfThree(a: string, b: string, c: string)
    requires IsWord(a) && IsWord(b) && IsWord(c)
    ensures Words(a + " " + b + " " + c) == [a, b, c]
  {
    var s := a + " " + b + " " + c;
    assert s[0] == a[0] && s[|s| - 1] == c[|c| - 1];
    TrimKeeps(s);
    ConcatAssoc3(a + " ", b, " ", c);
    NoBlank(a);
    SplitWhereCut(a, ' ', b + " " + c, IsBlank);
    SplitTwo(b, c);
  }

  lemma {:induction false} WordsOfTwo(a: string, b: string)
    requires IsWord(a) && IsWord(b)
    ensures Words(a + " " + b + " " + "") == [a, b]
  {
    var t := a + " " + b;
    assert a + " " + b + " " + "" == t + [' '];
    assert t[0] == a[0] && t[|t| - 1] == b[|b| - 1];
    TrimDropsLast(t, ' ');
    SplitTwo(a, b);
  }

  lemma {:induction false} ReadHeadLine(m: Module, st: ScanState)
    requires WritableModule(m)
    ensures LineStep(HeadLine(m), st) == Ok(ScanState(Module(m.kind, m.mref, m.feature, []), Tidy(st.current, st.decs)))
  {
    if m.feature == "" {
      WordsOfTwo(m.kind, m.mref);
    } else {
      WordsOfThree(m.kind, m.mref, m.feature);
    }
  }

  lemma {:induction false} ReadTalkText(a: Attribut)
    requires WritableAttribut(a)
    ensures IsWord(TalkText(a))
    ensures var parts := Split(TalkText(a), ':');
      parts[0] == a.talker && (if |parts| >= 2 then parts[1] else "") == a.voice
  {
    if a.voice == "" {
      SplitNone(a.talker, ':');
    } else {
      SplitCut(a.talker, ':', a.voice);
      SplitNone(a.voice, ':');
      var t := TalkText(a);
      forall j | 0 <= j < |t| ensures !IsWhitespace(t[j]) {
        if j < |a.talker| {
          assert t[j] == a.talker[j];
        } else if j > |a.talker| {
          assert t[j] == a.voice[j - |a.talker| - 1];
        }
      }
    }
  }

  lemma {:induction false} ReadAttributLine(a: Attribut, st: ScanState)
    requires WritableAttribut(a) && st.current.kind != ""
    ensures LineStep(AttributLine(a), st)
         == Ok(st.(current := st.current.(attributs := st.current.attributs + [a])))
  {
    ReadTalkText(a);
    assert IsWord(">");
    WordsOfThree(">", a.tag, TalkText(a));
    LineStepAttributWords(AttributLine(a), st, a.tag, TalkText(a));
  }

  /** A line of three words, the first `>`, adds an attribute to the module
      in hand. */
  lemma LineStepAttributWords(line: string, st: ScanState, tag: string, text: string)
    requires Words(line) == [">", tag, text] && st.current.kind != ""
    ensures var parts := Split(text, ':');
      LineStep(line, st) == Ok(st.(current := st.current.(attributs := st.current.attributs
        + [Attribut(tag, parts[0], if |parts| >= 2 then parts[1] else "")])))
  {
    assert Words(line)[0][0] == '>';
  }

  lemma {:induction false} ScanCons(line: string, more: seq<string>, st: ScanState)
    ensures Scan([line] + more, st)
         == match LineStep(line, st) case Err(m) => Err(m) case Ok(next) => Scan(more, next)
  {
    assert ([line] + more)[1..] == more;
  }

  lemma {:induction false} ScanAttributs(attributs: seq<Attribut>, more: seq<string>, st: ScanState)
    requires forall k :: 0 <= k < |attributs| ==> WritableAttribut(attributs[k])
    requires st.current.kind != ""
    ensures Scan(AttributLines(attributs) + more, st)
         == Scan(more, st.(current := st.current.(attributs := st.current.attributs + attributs)))
    decreases |attributs|
  {
    if |attributs| == 0 {
      assert AttributLines(attributs) + more == more;
      assert st.current.attributs + attributs == st.current.attributs;
    } else {
      var a := attributs[0];
      var later := AttributLines(attributs[1..]) + more;
      ConcatAssoc([AttributLine(a)], AttributLines(attributs[1..]), more);
      ScanCons(AttributLine(a), later, st);
      ReadAttributLine(a, st);
      var next := st.(current := st.current.(attributs := st.current.attributs + [a]));
      ScanAttributs(attributs[1..], more, next);
      AppendAttributs(st.current.attributs, attributs);
    }
  }

  lemma {:induction false} AppendAttributs(front: seq<Attribut>, attributs: seq<Attribut>)
    requires |attributs| > 0
    ensures front + [attributs[0]] + attributs[1..] == front + attributs
  {
    assert [attributs[0]] + attributs[1..] == attributs;
    ConcatAssoc(front, [attributs[0]], attributs[1..]);
  }

  lemma {:induction false} ScanModule(m: Module, more: seq<string>, st: ScanState)
    requires WritableModule(m)
    ensures Scan(ModuleLines(m) + more, st) == Scan(more, ScanState(m, Tidy(st.current, st.decs)))
  {
    var tail := AttributLines(m.attributs) + more;
    assert ModuleLines(m) + more == [""] + ([HeadLine(m)] + tail);
    ScanCons("", [HeadLine(m)] + tail, st);
    assert Words("") == [""];
    ScanCons(HeadLine(m), tail, st);
    ReadHeadLine(m, st);
    var head := ScanState(Module(m.kind, m.mref, m.feature, []), Tidy(st.current, st.decs));
    ScanAttributs(m.attributs, more, head);
    assert [] + m.attributs == m.attributs;
  }

  /** What `save` writes reads back: every module is filed, in order, with all
      its attributes. */
  lemma {:induction false} ScanSession(modules: seq<Module>, st: ScanState)
    requires forall k :: 0 <= k < |modules| ==> WritableModule(modules[k])
    ensures Scan(SessionLines(modules), st) == Ok(Filed(st.current, st.decs, modules))
    decreases |modules|
  {
    if |modules| > 0 {
      var m := modules[0];
      assert SessionLines(modules) == ModuleLines(m) + SessionLines(modules[1..]);
      ScanModule(m, SessionLines(modules[1..]), st);
      ScanSession(modules[1..], ScanState(m, Tidy(st.current, st.decs)));
    }
  }

  lemma {:induction false} ReadSession(modules: seq<Module>)
    requires forall k :: 0 <= k < |modules| ==> WritableModule(modules[k])
    ensures DecsOf(SessionLines(modules)) == Ok(Filed(NO_MODULE, NO_DECS, modules))
  {
    ScanSession(modules, ScanState(NO_MODULE, NO_DECS));
  }

  /** An attribute line before any module line is refused. */
  lemma {:induction false} AttributFirstFails(a: Attribut, more: seq<string>)
    requires WritableAttribut(a)
    ensures DecsOf([AttributLine(a)] + more).Err?
  {
    ReadTalkText(a);
    assert IsWord(">");
    WordsOfThree(">", a.tag, TalkText(a));
    ScanCons(AttributLine(a), more, ScanState(NO_MODULE, NO_DECS));
  }
}
