/** The chord arpeggiator of Chords.py: every `NOTE tick pitch len vel` line
    of a score becomes up to six notes of a chord, played as a down or an up
    stroke; every other line is copied unchanged.

    The widgets of the window become the fields of `ScriptClass`; the score is
    a sequence of already classified lines (`Line`), and the rewritten score a
    sequence of `Output`s, whose text is given by `Text`. Spin-box values that
    Qt stores as doubles (length factors, tick-gap length rates) are `real`. */
module Chords {
  import opened Numeric

  const VOICES: nat := 6
  const GAPS: nat := 5

  /** One entry of the chord menu: a name, the pitch of each voice relative to
      the played note, and which voices are muted. */
  datatype Template = Template(name: string, relativePitch: seq<int>, mute: seq<bool>)

  const F: bool := false
  const T: bool := true

  const CHORDS: seq<Template> := [
    Template("Major", [0, 7, 12, 16, 19, 24], [F, F, F, F, F, F]),
    Template("Minor", [0, 7, 12, 15, 19, 24], [F, F, F, F, F, F]),
    Template("Octave", [0, 12, 24, 36, 48, 60], [F, F, T, T, T, T]),
    Template("dim", [0, 6, 12, 15, 19, 24], [F, F, F, F, T, T]),
    Template("aug", [0, 8, 12, 16, 20, 24], [F, F, F, F, F, F]),
    Template("sus", [0, 7, 12, 17, 19, 24], [F, F, F, F, F, F]),
    Template("6", [0, 7, 12, 16, 21, 24], [F, F, F, F, F, F]),
    Template("7", [0, 7, 10, 16, 19, 24], [F, F, F, F, F, F]),
    Template("maj7", [0, 7, 11, 16, 19, 24], [F, F, F, F, F, T]),
    Template("9", [0, 7, 10, 16, 19, 26], [F, F, F, F, F, F]),
    Template("add9", [0, 7, 14, 16, 19, 24], [F, F, F, F, F, F]),
    Template("m6", [0, 7, 12, 15, 21, 24], [F, F, F, F, F, F]),
    Template("m7", [0, 7, 12, 15, 22, 24], [F, F, F, F, F, F]),
    Template("mmaj7", [0, 7, 11, 15, 19, 24], [F, F, F, F, F, T]),
    Template("m9", [0, 7, 10, 15, 19, 26], [F, F, F, F, F, F]),
    Template("11", [0, 7, 10, 17, 19, 26], [F, F, F, F, F, F]),
    Template("7sus4", [0, 7, 10, 17, 19, 24], [F, F, F, F, F, F]),
    Template("13", [0, 4, 10, 14, 21, 24], [F, F, F, F, F, T]),
    Template("6add9", [0, 4, 9, 14, 19, 24], [F, F, F, F, F, F]),
    Template("-5", [0, 7, 12, 18, 24, 28], [F, T, F, F, F, F]),
    Template("7-5", [0, 12, 18, 22, 24, 28], [F, F, F, F, F, F]),
    Template("7maj5", [0, 12, 20, 22, 28, 32], [F, F, F, F, F, F]),
    Template("maj9", [0, 7, 11, 16, 19, 26], [F, F, F, F, F, F])
  ]

  lemma {:induction false} ChordTableShape()
    ensures |CHORDS| == 23
    ensures forall k :: 0 <= k < |CHORDS| ==> |CHORDS[k].relativePitch| == VOICES && |CHORDS[k].mute| == VOICES
  {
  }

  /** A line of the score. A `NOTE` line is given by its first word and its
      four integer fields; a `BEATLEN` line keeps its text and its value. */
  datatype Line =
    | Note(tag: string, tick: int, pitch: int, length: int, velocity: int)
    | BeatLen(text: string, beat: int)
    | Other(text: string)

  /** A line of the rewritten score: a generated note, or an input line
      copied as it was. */
  datatype Output =
    | Emitted(tag: string, tick: int, pitch: int, length: int, velocity: int)
    | Passed(line: Line)

  /** The text written back for an output. */
  function Text(o: Output): string
    requires o.Passed? ==> !o.line.Note?
  {
    match o
    case Emitted(tag, t, p, l, v) =>
      tag + " " + FormatInt(t) + " " + FormatInt(p) + " " + FormatInt(l) + " " + FormatInt(v) + "\n"
    case Passed(line) => line.text
  }

  /** A note length scaled by a rate (a float product in the source). */
  function Times(L: int, rate: real): real { L as real * rate }

  /** Python's `int()` on a float: truncation toward zero. */
  function Trunc(x: real): (r: int)
    ensures x >= 0.0 ==> 0 <= r && r as real <= x < r as real + 1.0
    ensures x < 0.0 ==> r <= 0 && r as real - 1.0 < x <= r as real
  {
    if x >= 0.0 then x.Floor else -((-x).Floor)
  }

  /** The widget values `execute` reads. */
  datatype Settings = Settings(
    relativePitch: seq<int>,   // one per voice
    mute: seq<bool>,           // one per voice
    tickGap: seq<int>,         // one per gap between voices
    tickGapLengthRate: seq<real>,
    velocityGap: seq<int>,
    lengthRate: seq<real>,     // one per voice
    complete: bool,
    limited: bool)
  {
    predicate Valid() {
      |relativePitch| == VOICES && |mute| == VOICES && |lengthRate| == VOICES
      && |tickGap| == GAPS && |tickGapLengthRate| == GAPS && |velocityGap| == GAPS
    }
  }

  /** The fields of one entry of `downNotes` or `upNotes`. */
  datatype Voice = Voice(relativePitch: int, mute: bool, tickGap: int,
                         tickGapLengthRate: real, lengthRate: real, velocityGap: int)

  function VoiceOf(s: Settings, i: nat, g: nat): Voice
    requires s.Valid() && i < VOICES && g < GAPS
  {
    Voice(s.relativePitch[i], s.mute[i], s.tickGap[g], s.tickGapLengthRate[g], s.lengthRate[i], s.velocityGap[g])
  }

  /** `begin`: the first voice that is not muted, or 0 when all are muted. */
  function Begin(mute: seq<bool>): (r: nat)
    requires |mute| == VOICES
    ensures r < VOICES
    ensures (exists i :: 0 <= i < VOICES && !mute[i]) ==> !mute[r] && forall i :: 0 <= i < r ==> mute[i]
    ensures (forall i :: 0 <= i < VOICES ==> mute[i]) ==> r == 0
  {
    FirstUnmutedFrom(mute, 0)
  }

  function FirstUnmutedFrom(mute: seq<bool>, i: nat): (r: nat)
    requires |mute| == VOICES && i <= VOICES
    requires forall j :: 0 <= j < i ==> mute[j]
    ensures r < VOICES
    ensures (exists j :: i <= j < VOICES && !mute[j]) ==> i <= r && !mute[r] && forall j :: 0 <= j < r ==> mute[j]
    ensures (forall j :: i <= j < VOICES ==> mute[j]) ==> r == 0
    decreases VOICES - i
  {
    if i == VOICES then 0 else if !mute[i] then i else FirstUnmutedFrom(mute, i + 1)
  }

  /** `end`: the last voice that is not muted, or 0 when all are muted. */
  function End(mute: seq<bool>): (r: nat)
    requires |mute| == VOICES
    ensures r < VOICES
    ensures (exists i :: 0 <= i < VOICES && !mute[i]) ==> !mute[r] && forall i :: r < i < VOICES ==> mute[i]
    ensures (forall i :: 0 <= i < VOICES ==> mute[i]) ==> r == 0
  {
    LastUnmutedBelow(mute, VOICES)
  }

  function LastUnmutedBelow(mute: seq<bool>, i: nat): (r: nat)
    requires |mute| == VOICES && i <= VOICES
    requires forall j :: i <= j < VOICES ==> mute[j]
    ensures r < VOICES
    ensures (exists j :: 0 <= j < i && !mute[j]) ==> r < i && !mute[r] && forall j :: r < j < VOICES ==> mute[j]
    ensures (forall j :: 0 <= j < i ==> mute[j]) ==> r == 0
  {
    if i == 0 then 0 else if !mute[i - 1] then i - 1 else LastUnmutedBelow(mute, i - 1)
  }

  lemma {:induction false} BeginAtMostEnd(mute: seq<bool>)
    requires |mute| == VOICES
    ensures Begin(mute) <= End(mute)
  {
  }

  /** Voices `b..e` upwards; voice `i` takes the gap fields of index `i % 5`. */
  function Ascending(s: Settings, b: nat, e: nat): seq<Voice>
    requires s.Valid() && b <= e < VOICES
  {
    seq(e - b + 1, k requires 0 <= k < e - b + 1 => VoiceOf(s, b + k, (b + k) % GAPS))
  }

  /** Voices `e..b` downwards; voice `i` takes the gap fields of index
      `max(i - 1, 0)`. */
  function Descending(s: Settings, b: nat, e: nat): seq<Voice>
    requires s.Valid() && b <= e < VOICES
  {
    seq(e - b + 1, k requires 0 <= k < e - b + 1 => VoiceOf(s, e - k, if e - k >= 1 then e - k - 1 else 0))
  }

  /** `downNotes`: the voices from `begin` to `end`, upwards. */
  function DownNotes(s: Settings): seq<Voice>
    requires s.Valid()
  {
    BeginAtMostEnd(s.mute);
    Ascending(s, Begin(s.mute), End(s.mute))
  }

  /** `upNotes`: the voices from `end` to `begin`, downwards. */
  function UpNotes(s: Settings): seq<Voice>
    requires s.Valid()
  {
    BeginAtMostEnd(s.mute);
    Descending(s, Begin(s.mute), End(s.mute))
  }

  /** Voice `k` of an ascending stroke is voice `b + k`. */
  lemma {:induction false} AscendingVoices(s: Settings, b: nat, e: nat)
    requires s.Valid() && b <= e < VOICES
    ensures var d := Ascending(s, b, e);
      |d| == e - b + 1
      && forall k :: 0 <= k < |d| ==>
           d[k].relativePitch == s.relativePitch[b + k] && d[k].mute == s.mute[b + k]
           && d[k].lengthRate == s.lengthRate[b + k] && d[k].tickGap == s.tickGap[(b + k) % GAPS]
           && d[k].velocityGap == s.velocityGap[(b + k) % GAPS]
  {
    var d := Ascending(s, b, e);
    forall k | 0 <= k < |d|
      ensures d[k] == VoiceOf(s, b + k, (b + k) % GAPS)
    {
    }
  }

  /** Voice `k` of a descending stroke is voice `e - k`. */
  lemma {:induction false} DescendingVoices(s: Settings, b: nat, e: nat)
    requires s.Valid() && b <= e < VOICES
    ensures var u := Descending(s, b, e);
      |u| == e - b + 1
      && forall k :: 0 <= k < |u| ==>
           u[k].relativePitch == s.relativePitch[e - k] && u[k].mute == s.mute[e - k]
           && u[k].lengthRate == s.lengthRate[e - k]
           && u[k].tickGap == s.tickGap[if e - k >= 1 then e - k - 1 else 0]
           && u[k].velocityGap == s.velocityGap[if e - k >= 1 then e - k - 1 else 0]
  {
    var u := Descending(s, b, e);
    forall k | 0 <= k < |u|
      ensures u[k] == VoiceOf(s, e - k, if e - k >= 1 then e - k - 1 else 0)
    {
    }
  }

  /** The down stroke is voices `begin..end` upwards; voice `i` takes the
      gap fields of index `i % 5`. */
  lemma {:induction false} DownNotesVoices(s: Settings)
    requires s.Valid()
    ensures var b, e := Begin(s.mute), End(s.mute);
      var d := DownNotes(s);
      |d| == e - b + 1 && 1 <= |d| <= VOICES
      && forall k :: 0 <= k < |d| ==>
           d[k].relativePitch == s.relativePitch[b + k] && d[k].mute == s.mute[b + k]
           && d[k].lengthRate == s.lengthRate[b + k] && d[k].tickGap == s.tickGap[(b + k) % GAPS]
           && d[k].velocityGap == s.velocityGap[(b + k) % GAPS]
  {
    BeginAtMostEnd(s.mute);
    AscendingVoices(s, Begin(s.mute), End(s.mute));
  }

  /** The up stroke is voices `end..begin` downwards; voice `i` takes the
      gap fields of index `max(i - 1, 0)`. */
  lemma {:induction false} UpNotesVoices(s: Settings)
    requires s.Valid()
    ensures var b, e := Begin(s.mute), End(s.mute);
      var u := UpNotes(s);
      |u| == e - b + 1
      && forall k :: 0 <= k < |u| ==>
           u[k].relativePitch == s.relativePitch[e - k] && u[k].mute == s.mute[e - k]
           && u[k].lengthRate == s.lengthRate[e - k]
           && u[k].tickGap == s.tickGap[if e - k >= 1 then e - k - 1 else 0]
           && u[k].velocityGap == s.velocityGap[if e - k >= 1 then e - k - 1 else 0]
  {
    BeginAtMostEnd(s.mute);
    DescendingVoices(s, Begin(s.mute), End(s.mute));
  }

  /** The two strokes over the same voices mirror each other. */
  lemma {:induction false} MirroredStrokes(s: Settings, b: nat, e: nat)
    requires s.Valid() && b <= e < VOICES
    ensures var d, u := Ascending(s, b, e), Descending(s, b, e);
      |u| == |d|
      && forall k :: 0 <= k < |u| ==>
           u[k].relativePitch == d[|d| - 1 - k].relativePitch && u[k].mute == d[|d| - 1 - k].mute
           && u[k].lengthRate == d[|d| - 1 - k].lengthRate
  {
    var d, u := Ascending(s, b, e), Descending(s, b, e);
    forall k | 0 <= k < |u|
      ensures u[k] == VoiceOf(s, e - k, if e - k >= 1 then e - k - 1 else 0)
      ensures d[|d| - 1 - k] == VoiceOf(s, e - k, (e - k) % GAPS)
    {
      assert b + (|d| - 1 - k) == e - k;
    }
  }

  /** The up stroke plays the voices of the down stroke in reverse order. */
  lemma {:induction false} UpNotesMirrorDownNotes(s: Settings)
    requires s.Valid()
    ensures var d, u := DownNotes(s), UpNotes(s);
      |u| == |d|
      && forall k :: 0 <= k < |u| ==>
           u[k].relativePitch == d[|d| - 1 - k].relativePitch && u[k].mute == d[|d| - 1 - k].mute
           && u[k].lengthRate == d[|d| - 1 - k].lengthRate
  {
    BeginAtMostEnd(s.mute);
    MirroredStrokes(s, Begin(s.mute), End(s.mute));
  }

  /** Sums over all voices of a stroke but the last. */
  function SumTickGap(vs: seq<Voice>): int {
    if |vs| == 0 then 0 else SumTickGap(vs[..|vs| - 1]) + vs[|vs| - 1].tickGap
  }

  function SumTickGapLengthRate(vs: seq<Voice>): real {
    if |vs| == 0 then 0.0 else SumTickGapLengthRate(vs[..|vs| - 1]) + vs[|vs| - 1].tickGapLengthRate
  }

  function AllButLast(vs: seq<Voice>): seq<Voice> {
    if |vs| == 0 then [] else vs[..|vs| - 1]
  }

  /** The value of the last `BEATLEN` line, or `default` when there is none. */
  function BeatLenOf(lines: seq<Line>, default: real): real {
    if |lines| == 0 then default
    else if lines[|lines| - 1].BeatLen? then lines[|lines| - 1].beat as real
    else BeatLenOf(lines[..|lines| - 1], default)
  }

  /** The last `BEATLEN` line decides the beat length; without one, the
      computed default is used. */
  lemma {:induction false} LastBeatLenWins(lines: seq<Line>, default: real, j: nat)
    requires j < |lines| && lines[j].BeatLen?
    requires forall k :: j < k < |lines| ==> !lines[k].BeatLen?
    ensures BeatLenOf(lines, default) == lines[j].beat as real
    decreases |lines|
  {
    if j < |lines| - 1 {
      LastBeatLenWins(lines[..|lines| - 1], default, j);
    }
  }

  lemma {:induction false} NoBeatLenDefault(lines: seq<Line>, default: real)
    requires forall k :: 0 <= k < |lines| ==> !lines[k].BeatLen?
    ensures BeatLenOf(lines, default) == default
    decreases |lines|
  {
    if |lines| > 0 {
      NoBeatLenDefault(lines[..|lines| - 1], default);
    }
  }

  /** What every note of the score is processed with. */
  datatype Env = Env(down: seq<Voice>, up: seq<Voice>, beatLen: real,
                     totalTickGap: int, totalTickGapLengthRate: real,
                     complete: bool, limited: bool)

  function EnvOf(lines: seq<Line>, s: Settings): Env
    requires s.Valid()
  {
    var down := DownNotes(s);
    var tg, tglr := SumTickGap(AllButLast(down)), SumTickGapLengthRate(AllButLast(down));
    Env(down, UpNotes(s), BeatLenOf(lines, 2.0 * (tg as real + tglr)), tg, tglr, s.complete, s.limited)
  }

  /** The stroke direction state carried from note to note. */
  datatype Stroke = Stroke(up: bool, lastTick: real)

  function InitialStroke(beatLen: real): Stroke {
    Stroke(false, -4.0 * beatLen)
  }

  /** A gap longer than a beat forces a down stroke, a shorter one flips the
      direction, and a gap of exactly one beat keeps it. */
  function NextUp(up: bool, dt: real, beatLen: real): bool {
    if dt > beatLen then false else if dt < beatLen then !up else up
  }

  /** Running values while the voices of one note are played. */
  datatype VoiceState = VoiceState(t: int, l: int, v: int, lastTickGap: int)

  /** The fixed values of one note being played. */
  datatype NoteCtx = NoteCtx(tag: string, T: int, P: int, L: int, decrease: bool, limited: bool)

  /** `int(tickGap + L * tickGapLengthRate)`: how far the next voice starts after this one. */
  function Gap(c: NoteCtx, n: Voice): int {
    Trunc(n.tickGap as real + Times(c.L, n.tickGapLengthRate))
  }

  function VoiceLength(c: NoteCtx, n: Voice, st: VoiceState): int {
    var l := if c.decrease then st.l - 2 * st.lastTickGap else Trunc(Times(c.L, n.lengthRate));
    if c.limited then Min(l, c.L + c.T - st.t) else l
  }


  /** One voice: possibly a note, then the tick and velocity move on. */
  function VoiceStep(c: NoteCtx, n: Voice, st: VoiceState): (VoiceState, seq<Output>) {
    var l := VoiceLength(c, n, st);
    var out := if !n.mute && l > 0 then [Emitted(c.tag, st.t, c.P + n.relativePitch, l, st.v)] else [];
    var g := Gap(c, n);
    (VoiceState(st.t + g, l, st.v + n.velocityGap, g), out)
  }

  /** The voices of a stroke, in order. */
  function PlayVoices(c: NoteCtx, notes: seq<Voice>, st0: VoiceState): (VoiceState, seq<Output>) {
    if |notes| == 0 then (st0, [])
    else
      var (st, out) := PlayVoices(c, notes[..|notes| - 1], st0);
      var (st', more) := VoiceStep(c, notes[|notes| - 1], st);
      (st', out + more)
  }

  function NoteCtxOf(line: Line, env: Env): NoteCtx
    requires line.Note?
  {
    NoteCtx(line.tag, line.tick, line.pitch, line.length,
            env.complete && (line.length as real) < env.beatLen, env.limited)
  }

  /** The initial running values of a note: `l` is lengthened in complete mode. */
  function NoteStart(line: Line, env: Env): VoiceState
    requires line.Note?
  {
    var L := line.length;
    var l := if env.complete && (L as real) < env.beatLen
             then L + env.totalTickGap + Trunc(Times(L, env.totalTickGapLengthRate)) else L;
    VoiceState(line.tick, l, line.velocity, 0)
  }

  /** One line of the score. */
  function LineStep(line: Line, stroke: Stroke, env: Env): (Stroke, seq<Output>) {
    if line.Note? then
      var up := NextUp(stroke.up, line.tick as real - stroke.lastTick, env.beatLen);
      var notes := if up then env.up else env.down;
      var (_, out) := PlayVoices(NoteCtxOf(line, env), notes, NoteStart(line, env));
      (Stroke(up, line.tick as real), out)
    else
      (stroke, [Passed(line)])
  }

  /** The score line by line, with the stroke state carried along. A score
      without `NOTE` lines is copied as it is and leaves the stroke state at
      its start; after a `NOTE` line, `lastTick` is that line's tick. */
  function Run(lines: seq<Line>, env: Env): (r: (Stroke, seq<Output>))
    ensures (forall k :: 0 <= k < |lines| ==> !lines[k].Note?) ==>
      r.0 == InitialStroke(env.beatLen) && |r.1| == |lines| && forall k :: 0 <= k < |lines| ==> r.1[k] == Passed(lines[k])
    ensures |lines| > 0 && lines[|lines| - 1].Note? ==> r.0.lastTick == lines[|lines| - 1].tick as real
  {
    if |lines| == 0 then (InitialStroke(env.beatLen), [])
    else
      var (stroke, out) := Run(lines[..|lines| - 1], env);
      var (stroke', more) := LineStep(lines[|lines| - 1], stroke, env);
      (stroke', out + more)
  }

  /** The rewritten score: its copied lines are exactly the lines that are
      not `NOTE` lines, in order. */
  function Transform(lines: seq<Line>, s: Settings): (r: seq<Output>)
    requires s.Valid()
    ensures Passes(r) == NonNotes(lines)
  {
    PassThroughInOrder(lines, EnvOf(lines, s));
    Run(lines, EnvOf(lines, s)).1
  }

  // ---------------------------------------------------------------------------
  // Properties of the transformation

  /** The copied lines of an output, in order. */
  function Passes(outs: seq<Output>): seq<Line> {
    if |outs| == 0 then []
    else Passes(outs[..|outs| - 1]) + (if outs[|outs| - 1].Passed? then [outs[|outs| - 1].line] else [])
  }

  /** The lines of a score that are not `NOTE` lines, in order. */
  function NonNotes(lines: seq<Line>): seq<Line> {
    if |lines| == 0 then []
    else NonNotes(lines[..|lines| - 1]) + (if lines[|lines| - 1].Note? then [] else [lines[|lines| - 1]])
  }

  lemma {:induction false} PassesAppend(a: seq<Output>, b: seq<Output>)
    ensures Passes(a + b) == Passes(a) + Passes(b)
    decreases |b|
  {
    if |b| > 0 {
      var ab := a + b;
      var last := if b[|b| - 1].Passed? then [b[|b| - 1].line] else [];
      assert ab[..|ab| - 1] == a + b[..|b| - 1];
      assert ab[|ab| - 1] == b[|b| - 1];
      assert Passes(ab) == Passes(a + b[..|b| - 1]) + last;
      PassesAppend(a, b[..|b| - 1]);
      assert Passes(b) == Passes(b[..|b| - 1]) + last;
    } else {
      assert a + b == a;
    }
  }

  /** A stroke emits only generated notes, one per voice at most, all with
      the tag of the played line. */
  lemma {:induction false} PlayVoicesEmits(c: NoteCtx, notes: seq<Voice>, st0: VoiceState)
    ensures var out := PlayVoices(c, notes, st0).1;
      |out| <= |notes| && Passes(out) == []
      && forall k :: 0 <= k < |out| ==> out[k].Emitted? && out[k].tag == c.tag && out[k].length > 0
    decreases |notes|
  {
    if |notes| > 0 {
      var (st, out) := PlayVoices(c, notes[..|notes| - 1], st0);
      PlayVoicesEmits(c, notes[..|notes| - 1], st0);
      var (_, more) := VoiceStep(c, notes[|notes| - 1], st);
      PassesAppend(out, more);
    }
  }

  /** Every line that is not a `NOTE` line reaches the output unchanged and in
      its original order; nothing else is copied. */
  lemma {:induction false} PassThroughInOrder(lines: seq<Line>, env: Env)
    ensures Passes(Run(lines, env).1) == NonNotes(lines)
    decreases |lines|
  {
    if |lines| > 0 {
      var (stroke, out) := Run(lines[..|lines| - 1], env);
      PassThroughInOrder(lines[..|lines| - 1], env);
      var line := lines[|lines| - 1];
      var (_, more) := LineStep(line, stroke, env);
      PassesAppend(out, more);
      if line.Note? {
        var up := NextUp(stroke.up, line.tick as real - stroke.lastTick, env.beatLen);
        PlayVoicesEmits(NoteCtxOf(line, env), if up then env.up else env.down, NoteStart(line, env));
      }
    }
  }

  lemma {:induction false} PassThrough(lines: seq<Line>, s: Settings)
    requires s.Valid()
    ensures Passes(Transform(lines, s)) == NonNotes(lines)
  {
    PassThroughInOrder(lines, EnvOf(lines, s));
  }

  /** After a stroke of `k` voices, the tick has moved by the sum of their
      gaps and the velocity by the sum of their velocity gaps. */
  function SumGaps(c: NoteCtx, notes: seq<Voice>): int {
    if |notes| == 0 then 0 else SumGaps(c, notes[..|notes| - 1]) + Gap(c, notes[|notes| - 1])
  }

  function SumVelocityGaps(notes: seq<Voice>): int {
    if |notes| == 0 then 0 else SumVelocityGaps(notes[..|notes| - 1]) + notes[|notes| - 1].velocityGap
  }

  lemma {:induction false} PlayVoicesTicks(c: NoteCtx, notes: seq<Voice>, st0: VoiceState)
    ensures var st := PlayVoices(c, notes, st0).0;
      st.t == st0.t + SumGaps(c, notes) && st.v == st0.v + SumVelocityGaps(notes)
      && st.lastTickGap == (if |notes| == 0 then st0.lastTickGap else Gap(c, notes[|notes| - 1]))
    decreases |notes|
  {
    if |notes| > 0 {
      PlayVoicesTicks(c, notes[..|notes| - 1], st0);
    }
  }

  /** In complete mode without the limit, voice `k` lasts the lengthened
      note minus twice the gaps already taken. */
  lemma {:induction false} CompleteLengths(c: NoteCtx, notes: seq<Voice>, st0: VoiceState)
    requires c.decrease && !c.limited && st0.lastTickGap == 0
    ensures |notes| > 0 ==>
      PlayVoices(c, notes, st0).0.l == st0.l - 2 * SumGaps(c, notes[..|notes| - 1])
    decreases |notes|
  {
    if |notes| > 1 {
      var init := notes[..|notes| - 1];
      CompleteLengths(c, init, st0);
      PlayVoicesTicks(c, init, st0);
      assert init[..|init| - 1] + [init[|init| - 1]] == init;
    }
  }

  /** Without complete mode and without the limit, each voice lasts
      `int(L * lengthRate)`. */
  lemma {:induction false} PlainLength(c: NoteCtx, n: Voice, st: VoiceState)
    requires !c.decrease && !c.limited
    ensures VoiceStep(c, n, st).0.l == Trunc(Times(c.L, n.lengthRate))
  {
  }

  /** In limited mode no generated note ends after the played note. */
  lemma {:induction false} LimitedNotesEndInTime(c: NoteCtx, notes: seq<Voice>, st0: VoiceState)
    requires c.limited
    ensures forall o :: o in PlayVoices(c, notes, st0).1 ==> o.Emitted? && o.tick + o.length <= c.T + c.L
    decreases |notes|
  {
    if |notes| > 0 {
      LimitedNotesEndInTime(c, notes[..|notes| - 1], st0);
      PlayVoicesEmits(c, notes, st0);
    }
  }

  /** The first note of a score is a down stroke whenever it is less than
      three beats before tick 0 (the initial `lastTick` is four beats back). */
  lemma {:induction false} FirstNoteIsDownStroke(line: Line, env: Env)
    requires line.Note? && (line.tick as real) > -3.0 * env.beatLen
    ensures LineStep(line, InitialStroke(env.beatLen), env).0.up == false
  {
  }

  /** After a `NOTE` line, `lastTick` is its tick whatever the direction. */
  lemma {:induction false} StrokeFollowsNotes(line: Line, stroke: Stroke, env: Env)
    ensures line.Note? ==> LineStep(line, stroke, env).0.lastTick == line.tick as real
    ensures !line.Note? ==> LineStep(line, stroke, env).0 == stroke
  {
  }

  /** A voice sounds exactly when it is not muted and its length is
      positive; the note it plays is the voice's pitch offset added to the
      played pitch, at the running tick and velocity. */
  lemma {:induction false} VoiceSounds(c: NoteCtx, n: Voice, st: VoiceState)
    ensures var out := VoiceStep(c, n, st).1;
      var l := VoiceLength(c, n, st);
      (|out| == 1 <==> !n.mute && l > 0) && (|out| == 0 <==> n.mute || l <= 0)
      && (|out| == 1 ==> out[0] == Emitted(c.tag, st.t, c.P + n.relativePitch, l, st.v))
  {
  }

  /** The direction of a note's stroke, from the gap since the previous note:
      longer than a beat gives a down stroke, shorter flips the previous
      direction, exactly one beat keeps it. */
  lemma {:induction false} StrokeDirection(line: Line, stroke: Stroke, env: Env)
    requires line.Note?
    ensures var dt := line.tick as real - stroke.lastTick;
      var up := LineStep(line, stroke, env).0.up;
      (dt > env.beatLen ==> !up) && (dt < env.beatLen ==> up == !stroke.up)
      && (dt == env.beatLen ==> up == stroke.up)
  {
  }

  /** A stroke of a note is down exactly when the previous note was more than
      a beat before, or the previous stroke was up and the gap is under a beat,
      or the previous stroke was down and the gap is exactly a beat. */
  lemma {:induction false} DownStrokeWhen(line: Line, stroke: Stroke, env: Env)
    requires line.Note?
    ensures var dt := line.tick as real - stroke.lastTick;
      !LineStep(line, stroke, env).0.up <==>
        dt > env.beatLen || (dt < env.beatLen && stroke.up) || (dt == env.beatLen && !stroke.up)
  {
  }

  // ---------------------------------------------------------------------------
  // The window

  class ScriptClass {
    var rp: seq<int>
    var mt: seq<bool>
    var tg: seq<int>
    var tglr: seq<real>
    var vg: seq<int>
    var lr: seq<real>
    var cn: bool   // "complete"
    var ln: bool   // "limited"
    var lrDisabled: bool   // the length-factor spin boxes are greyed out

    ghost predicate Valid() reads this {
      Snapshot().Valid()
    }

    function Snapshot(): Settings reads this {
      Settings(rp, mt, tg, tglr, vg, lr, cn, ln)
    }

    /** The window's initial values: tick gaps 8, rates 0, velocity gaps -2,
        length factors 1, then the first chord of the menu. */
    constructor ()
      ensures Valid()
      ensures tg == seq(GAPS, _ => 8) && tglr == seq(GAPS, _ => 0.0) && vg == seq(GAPS, _ => -2)
      ensures lr == seq(VOICES, _ => 1.0)
      ensures rp == CHORDS[0].relativePitch && mt == CHORDS[0].mute
      ensures !cn && !ln && !lrDisabled
    {
      tg := seq(GAPS, _ => 8);
      tglr := seq(GAPS, _ => 0.0);
      vg := seq(GAPS, _ => -2);
      lr := seq(VOICES, _ => 1.0);
      cn, ln := false, false;
      lrDisabled := false;
      rp := CHORDS[0].relativePitch;
      mt := CHORDS[0].mute;
    }

    /** Choosing a chord overwrites the relative pitches and the mutes only. */
    method SetChord(index: nat)
      requires Valid() && index < |CHORDS|
      modifies this
      ensures Valid()
      ensures rp == CHORDS[index].relativePitch && mt == CHORDS[index].mute
      ensures tg == old(tg) && tglr == old(tglr) && vg == old(vg) && lr == old(lr)
      ensures cn == old(cn) && ln == old(ln)
    {
      ChordTableShape();
      var i := 0;
      while i < VOICES
        invariant 0 <= i <= VOICES && |rp| == VOICES && |mt| == VOICES
        invariant forall j :: 0 <= j < i ==> rp[j] == CHORDS[index].relativePitch[j] && mt[j] == CHORDS[index].mute[j]
        invariant tg == old(tg) && tglr == old(tglr) && vg == old(vg) && lr == old(lr)
        invariant cn == old(cn) && ln == old(ln)
      {
        rp := rp[i := CHORDS[index].relativePitch[i]];
        mt := mt[i := CHORDS[index].mute[i]];
        i := i + 1;
      }
    }

    /** The "All" column: each setter gives every widget of its row the value. */
    method SetRP(val: int)
      requires Valid()
      modifies this
      ensures Valid() && rp == seq(VOICES, _ => val)
      ensures mt == old(mt) && tg == old(tg) && tglr == old(tglr) && vg == old(vg) && lr == old(lr)
      ensures cn == old(cn) && ln == old(ln)
    {
      rp := seq(VOICES, _ => val);
    }

    method SetTG(val: int)
      requires Valid()
      modifies this
      ensures Valid() && tg == seq(GAPS, _ => val)
      ensures rp == old(rp) && mt == old(mt) && tglr == old(tglr) && vg == old(vg) && lr == old(lr)
      ensures cn == old(cn) && ln == old(ln)
    {
      tg := seq(GAPS, _ => val);
    }

    method SetTGLR(val: real)
      requires Valid()
      modifies this
      ensures Valid() && tglr == seq(GAPS, _ => val)
      ensures rp == old(rp) && mt == old(mt) && tg == old(tg) && vg == old(vg) && lr == old(lr)
      ensures cn == old(cn) && ln == old(ln)
    {
      tglr := seq(GAPS, _ => val);
    }

    method SetVG(val: int)
      requires Valid()
      modifies this
      ensures Valid() && vg == seq(GAPS, _ => val)
      ensures rp == old(rp) && mt == old(mt) && tg == old(tg) && tglr == old(tglr) && lr == old(lr)
      ensures cn == old(cn) && ln == old(ln)
    {
      vg := seq(GAPS, _ => val);
    }

    method SetMT(val: bool)
      requires Valid()
      modifies this
      ensures Valid() && mt == seq(VOICES, _ => val)
      ensures rp == old(rp) && tg == old(tg) && tglr == old(tglr) && vg == old(vg) && lr == old(lr)
      ensures cn == old(cn) && ln == old(ln)
    {
      mt := seq(VOICES, _ => val);
    }

    method SetLR(val: real)
      requires Valid()
      modifies this
      ensures Valid() && lr == seq(VOICES, _ => val)
      ensures rp == old(rp) && mt == old(mt) && tg == old(tg) && tglr == old(tglr) && vg == old(vg)
      ensures cn == old(cn) && ln == old(ln)
    {
      lr := seq(VOICES, _ => val);
    }

    /** A click on "complete" (Qt has already toggled the box): the length
        factors are greyed out while it is checked, and checking it unchecks
        "limited". */
    method ClickComplete(checked: bool)
      requires Valid()
      modifies this
      ensures Valid() && cn == checked && lrDisabled == checked
      ensures ln == (old(ln) && !checked)
      ensures !(cn && ln)
      ensures rp == old(rp) && mt == old(mt) && tg == old(tg) && tglr == old(tglr) && vg == old(vg) && lr == old(lr)
    {
      cn := checked;
      DisableLR(checked);
    }

    /** `disableLR`: greys the length factors out or back in; greying them
        out unchecks "limited". */
    method DisableLR(disable: bool)
      requires Valid()
      modifies this
      ensures Valid() && lrDisabled == disable
      ensures ln == (old(ln) && !disable)
      ensures cn == old(cn)
      ensures rp == old(rp) && mt == old(mt) && tg == old(tg) && tglr == old(tglr) && vg == old(vg) && lr == old(lr)
    {
      lrDisabled := disable;
      if disable {
        ln := false;
      }
    }

    /** A click on "limited" (`disableCN`): checking it gives the length
        factors back and unchecks "complete". */
    method ClickLimited(checked: bool)
      requires Valid()
      modifies this
      ensures Valid() && ln == checked
      ensures checked ==> !cn && !lrDisabled
      ensures !checked ==> cn == old(cn) && lrDisabled == old(lrDisabled)
      ensures old(!(cn && ln)) ==> !(cn && ln)
      ensures rp == old(rp) && mt == old(mt) && tg == old(tg) && tglr == old(tglr) && vg == old(vg) && lr == old(lr)
    {
      ln := checked;
      if checked {
        DisableLR(false);
        cn := false;
      }
    }

    /** The "Execute" button: the score rewritten with the current settings. */
    method Execute(lines: seq<Line>) returns (outputEvents: seq<Output>)
      requires Valid()
      ensures outputEvents == Transform(lines, Snapshot())
    {
      var s := Snapshot();
      var begin := FindBegin(mt);
      var end := FindEnd(mt);
      var downNotes, upNotes := DownNotes(s), UpNotes(s);
      var totalTickGap, totalTickGapLengthRate := Totals(downNotes);
      var beatLen := FindBeatLen(lines, 2.0 * (totalTickGap as real + totalTickGapLengthRate));
      var env := Env(downNotes, upNotes, beatLen, totalTickGap, totalTickGapLengthRate, cn, ln);
      assert env == EnvOf(lines, s);
      outputEvents := RunLines(lines, env);
    }
  }

  /** The loop that finds `begin`. */
  method FindBegin(mt: seq<bool>) returns (begin: nat)
    requires |mt| == VOICES
    ensures begin == Begin(mt)
  {
    begin := 0;
    var i := 0;
    while i < VOICES
      invariant 0 <= i <= VOICES && begin == 0
      invariant forall j :: 0 <= j < i ==> mt[j]
    {
      if !mt[i] {
        begin := i;
        break;
      }
      i := i + 1;
    }
  }

  /** The loop that finds `end`. */
  method FindEnd(mt: seq<bool>) returns (end: nat)
    requires |mt| == VOICES
    ensures end == End(mt)
  {
    end := 0;
    var i := VOICES;
    while i > 0
      invariant 0 <= i <= VOICES && end == 0
      invariant forall j :: i <= j < VOICES ==> mt[j]
    {
      if !mt[i - 1] {
        end := i - 1;
        break;
      }
      i := i - 1;
    }
  }

  /** The sums of tick gaps and of their length rates over every voice of
      the down stroke but the last. */
  method Totals(downNotes: seq<Voice>) returns (totalTickGap: int, totalTickGapLengthRate: real)
    ensures totalTickGap == SumTickGap(AllButLast(downNotes))
    ensures totalTickGapLengthRate == SumTickGapLengthRate(AllButLast(downNotes))
  {
    totalTickGap, totalTickGapLengthRate := 0, 0.0;
    var k := 0;
    while k < |downNotes| - 1
      invariant 0 <= k <= if |downNotes| == 0 then 0 else |downNotes| - 1
      invariant totalTickGap == SumTickGap(downNotes[..k])
      invariant totalTickGapLengthRate == SumTickGapLengthRate(downNotes[..k])
    {
      assert downNotes[..k + 1][..k] == downNotes[..k];
      totalTickGap := totalTickGap + downNotes[k].tickGap;
      totalTickGapLengthRate := totalTickGapLengthRate + downNotes[k].tickGapLengthRate;
      k := k + 1;
    }
    assert downNotes[..k] == AllButLast(downNotes);
  }

  /** The loop over the score that picks up `BEATLEN` lines. */
  method FindBeatLen(lines: seq<Line>, default: real) returns (beatLen: real)
    ensures beatLen == BeatLenOf(lines, default)
  {
    beatLen := default;
    var k := 0;
    while k < |lines|
      invariant 0 <= k <= |lines|
      invariant beatLen == BeatLenOf(lines[..k], default)
    {
      assert lines[..k + 1][..k] == lines[..k];
      if lines[k].BeatLen? {
        beatLen := lines[k].beat as real;
      }
      k := k + 1;
    }
    assert lines[..k] == lines;
  }

  /** The loop over the score. */
  method RunLines(lines: seq<Line>, env: Env) returns (outputEvents: seq<Output>)
    ensures outputEvents == Run(lines, env).1
  {
    var lastTick := -4.0 * env.beatLen;
    var up := false;
    outputEvents := [];
    var k := 0;
    while k < |lines|
      invariant 0 <= k <= |lines|
      invariant (Stroke(up, lastTick), outputEvents) == Run(lines[..k], env)
    {
      assert lines[..k + 1][..k] == lines[..k];
      var line := lines[k];
      if line.Note? {
        var dt := line.tick as real - lastTick;
        if dt > env.beatLen {
          up := false;
        } else if dt < env.beatLen {
          up := !up;
        }
        lastTick := line.tick as real;
        var chunk := PlayNote(line, if up then env.up else env.down, env);
        outputEvents := outputEvents + chunk;
      } else {
        outputEvents := outputEvents + [Passed(line)];
      }
      k := k + 1;
    }
    assert lines[..k] == lines;
  }

  /** Playing one more voice of a stroke. */
  lemma {:induction false} PlayVoicesStep(c: NoteCtx, notes: seq<Voice>, j: nat, st0: VoiceState)
    requires j < |notes|
    ensures var (st, out) := PlayVoices(c, notes[..j], st0);
      PlayVoices(c, notes[..j + 1], st0) == (VoiceStep(c, notes[j], st).0, out + VoiceStep(c, notes[j], st).1)
  {
    assert notes[..j + 1][..j] == notes[..j];
  }

  /** The loop over the voices of one stroke. */
  method PlayNote(line: Line, notes: seq<Voice>, env: Env) returns (chunk: seq<Output>)
    requires line.Note?
    ensures chunk == PlayVoices(NoteCtxOf(line, env), notes, NoteStart(line, env)).1
  {
    var c := NoteCtxOf(line, env);
    var st0 := NoteStart(line, env);
    var t, l, v, lastTickGap := st0.t, st0.l, st0.v, 0;
    chunk := [];
    var j := 0;
    while j < |notes|
      invariant 0 <= j <= |notes|
      invariant VoiceState(t, l, v, lastTickGap) == PlayVoices(c, notes[..j], st0).0
      invariant chunk == PlayVoices(c, notes[..j], st0).1
    {
      var n := notes[j];
      ghost var before := VoiceState(t, l, v, lastTickGap);
      PlayVoicesStep(c, notes, j, st0);
      if c.decrease {
        l := l - 2 * lastTickGap;
      } else {
        l := Trunc(Times(c.L, n.lengthRate));
      }
      if c.limited {
        l := Min(l, c.L + c.T - t);
      }
      assert l == VoiceLength(c, n, before);
      if !n.mute && l > 0 {
        chunk := chunk + [Emitted(c.tag, t, c.P + n.relativePitch, l, v)];
      }
      lastTickGap := Trunc(n.tickGap as real + Times(c.L, n.tickGapLengthRate));
      t := t + lastTickGap;
      v := v + n.velocityGap;
      j := j + 1;
    }
    assert notes[..j] == notes;
  }
}
