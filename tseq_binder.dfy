/** The sequencer's binder (session/src/talkers/tseq/binder.rs): the
    definitions of a tseq text, by identifier, and the chord lines and pitch
    lines turned into values ready to play.

    The parser records the binder reads (`PChord`, `PAttack`, `PChordLine`,
    `PVelocityLine`, `PPitchLine`…) are not defined by the parser that is part
    of this model; the datatypes below keep the fields binder.rs reads. The
    records it only stores and hands back (beats, duration lines, hit lines,
    sequences) are type parameters. */
module TseqBinder {
  import opened Wrappers

  /** `PTransition`: how a value moves to the next one; `NoShape` is `None`. */
  datatype Shape = NoShape | Linear | Sin | Early | Late | Round

  datatype PVelocity = PVelocity(value: real, transition: Shape)

  datatype PVelocityLine = PVelocityLine(id: string, velocities: seq<PVelocity>)

  /** A frequency ratio as written, `num / den`. */
  datatype PRatio = PRatio(num: real, den: real)

  datatype PHarmonic = PHarmonic(freqRatio: PRatio, delay: Option<real>, velocity: Option<PVelocity>)

  datatype PChord = PChord(id: string, harmonics: seq<PHarmonic>)

  datatype PAccent = PAccent(delay: real, velocity: Option<PVelocity>)

  datatype PAttack = PAttack(id: string, accents: seq<PAccent>)

  datatype PChordAndAttack = PChordAndAttack(chordId: string, attackId: Option<string>)

  datatype PChordLine = PChordLine(id: string, chords: seq<PChordAndAttack>)

  datatype PPitch = PPitch(id: string, transition: Shape)

  datatype PPitchLine = PPitchLine(id: string, pitchs: seq<PPitch>)

  /** A harmonic of a chord, ready to play. */
  datatype Harmonic = Harmonic(freqRatio: real, delayTicks: int, velocity: real, velocityTransition: Shape)

  /** The floating-point steps of `deserialize`, which the model does not
      compute: the `f32` division of a ratio, `(delay * sample_rate) as i64`
      with the sample rate of the audio format, the frequency the tempered
      scale gives a pitch name (`Scale::fetch_frequency`, not part of this
      model), and `audio_event::DEFAULT_VELOCITY`, not part of this model
      either. */
  datatype FloatSteps = FloatSteps(
    quotient: (real, real) -> real,
    delayTicks: real -> int,
    frequencyOf: string -> Result<real>,
    defaultVelocity: real)

  /** The error of every `fetch_*` for an absent identifier. */
  function NotFound(what: string, id: string): string {
    "Tseq " + what + " " + id + " not found!"
  }

  /** `map.get(id)` turned into a `Result`. */
  function Lookup<E>(m: map<string, E>, what: string, id: string): (r: Result<E>)
    ensures r.Ok? <==> id in m
    ensures r.Ok? ==> r.value == m[id]
    ensures r.Err? ==> r.msg == NotFound(what, id)
  {
    if id in m then Ok(m[id]) else Err(NotFound(what, id))
  }

  /** An entry stored under a key is what a later lookup of that key finds,
      and it hides nothing stored under another key. */
  lemma LookupAfterInsert<E>(m: map<string, E>, what: string, id: string, e: E, other: string)
    requires other != id
    ensures Lookup(m[id := e], what, id) == Ok(e)
    ensures Lookup(m[id := e], what, other) == Lookup(m, what, other)
  {
  }

  /** `DEFAULT_CHORD`: a single harmonic at ratio 1, no delay, velocity 1. */
  const DefaultChord := Harmonic(1.0, 0, 1.0, NoShape)

  /** The default velocity line: one velocity 1 without transition. */
  const DefaultVelocityline := PVelocityLine("", [PVelocity(1.0, NoShape)])

  /** The accents of an attack, or none when the chord names no attack or an
      attack that is not defined. */
  function AccentsOf(attacks: map<string, PAttack>, attackId: Option<string>): (r: seq<PAccent>)
    ensures attackId.Some? && attackId.value in attacks ==> r == attacks[attackId.value].accents
    ensures attackId.None? || attackId.value !in attacks ==> r == []
  {
    if attackId.Some? && attackId.value in attacks then attacks[attackId.value].accents else []
  }

  /** Harmonic `idx` of a chord played with `accents`: an accent at the
      same position replaces the harmonic's delay and velocity, otherwise
      the harmonic keeps its own (no delay and the default velocity when it
      gives none). */
  function HarmonicOf(steps: FloatSteps, idx: nat, h: PHarmonic, accents: seq<PAccent>): (r: Harmonic)
    ensures r.freqRatio == steps.quotient(h.freqRatio.num, h.freqRatio.den)
    ensures idx < |accents| ==> r.delayTicks == steps.delayTicks(accents[idx].delay)
    ensures idx >= |accents| ==> r.delayTicks == steps.delayTicks(h.delay.GetOr(0.0))
    ensures var v := if idx < |accents| then accents[idx].velocity else h.velocity;
      (v.Some? ==> r.velocity == v.value.value && r.velocityTransition == v.value.transition) &&
      (v.None? ==> r.velocity == steps.defaultVelocity && r.velocityTransition == NoShape)
  {
    var delay := if idx < |accents| then accents[idx].delay else h.delay.GetOr(0.0);
    var ovelocity := if idx < |accents| then accents[idx].velocity else h.velocity;
    var velocity := if ovelocity.Some? then ovelocity.value.value else steps.defaultVelocity;
    var transition := if ovelocity.Some? then ovelocity.value.transition else NoShape;
    Harmonic(steps.quotient(h.freqRatio.num, h.freqRatio.den), steps.delayTicks(delay), velocity, transition)
  }

  /** The first `n` harmonics of a chord played with `accents`. */
  function ChordHarmonics(steps: FloatSteps, hs: seq<PHarmonic>, accents: seq<PAccent>, n: nat): (r: seq<Harmonic>)
    requires n <= |hs|
    ensures |r| == n
    ensures forall i :: 0 <= i < n ==> r[i] == HarmonicOf(steps, i, hs[i], accents)
  {
    if n == 0 then [] else ChordHarmonics(steps, hs, accents, n - 1) + [HarmonicOf(steps, n - 1, hs[n - 1], accents)]
  }

  /** The first `n` chords of a chord line, each with its attack's accents;
      the first chord that is not defined is an error. */
  function ChordlineHarmonics(steps: FloatSteps, chords: map<string, PChord>, attacks: map<string, PAttack>,
                              line: seq<PChordAndAttack>, n: nat): (r: Result<seq<seq<Harmonic>>>)
    requires n <= |line|
    ensures r.Ok? <==> forall i :: 0 <= i < n ==> line[i].chordId in chords
    ensures r.Ok? ==> |r.value| == n && forall i :: 0 <= i < n ==>
      var c := chords[line[i].chordId].harmonics;
      r.value[i] == ChordHarmonics(steps, c, AccentsOf(attacks, line[i].attackId), |c|)
    ensures r.Err? ==> exists k ::
      0 <= k < n && line[k].chordId !in chords &&
      (forall i :: 0 <= i < k ==> line[i].chordId in chords) && r.msg == NotFound("chord", line[k].chordId)
  {
    if n == 0 then Ok([])
    else
      var prefix := ChordlineHarmonics(steps, chords, attacks, line, n - 1);
      var ca := line[n - 1];
      if prefix.Err? then prefix
      else if ca.chordId !in chords then Err(NotFound("chord", ca.chordId))
      else
        var c := chords[ca.chordId].harmonics;
        Ok(prefix.value + [ChordHarmonics(steps, c, AccentsOf(attacks, ca.attackId), |c|)])
  }

  /** The frequencies and transitions of the first `n` pitches of a line;
      the first pitch the scale does not know is an error. */
  function PitchFrequencies(steps: FloatSteps, ps: seq<PPitch>, n: nat): (r: Result<seq<(real, Shape)>>)
    requires n <= |ps|
    ensures r.Ok? <==> forall i :: 0 <= i < n ==> steps.frequencyOf(ps[i].id).Ok?
    ensures r.Ok? ==> |r.value| == n && forall i :: 0 <= i < n ==>
      r.value[i] == (steps.frequencyOf(ps[i].id).value, ps[i].transition)
    ensures r.Err? ==> exists k ::
      0 <= k < n && steps.frequencyOf(ps[k].id).Err? &&
      (forall i :: 0 <= i < k ==> steps.frequencyOf(ps[i].id).Ok?) && r.msg == steps.frequencyOf(ps[k].id).msg
  {
    if n == 0 then Ok([])
    else
      var prefix := PitchFrequencies(steps, ps, n - 1);
      var f := steps.frequencyOf(ps[n - 1].id);
      if prefix.Err? then prefix
      else if f.Err? then Err(f.msg)
      else Ok(prefix.value + [(f.value, ps[n - 1].transition)])
  }

  /** The deserialized pitch lines after the first `n` pitch lines, and
      whether one of them failed; the lines before a failing one stay
      stored. */
  function PitchlinesAfter(steps: FloatSteps, m: map<string, seq<(real, Shape)>>, lines: seq<PPitchLine>, n: nat):
    (r: (map<string, seq<(real, Shape)>>, Result<()>))
    requires n <= |lines|
    ensures r.1.Ok? ==> forall i :: 0 <= i < n ==> lines[i].id in r.0
    ensures r.1.Ok? ==> forall k :: k in m ==> k in r.0
  {
    if n == 0 then (m, Ok(()))
    else
      var (m1, r1) := PitchlinesAfter(steps, m, lines, n - 1);
      var line := lines[n - 1];
      var ps := PitchFrequencies(steps, line.pitchs, |line.pitchs|);
      if r1.Err? then (m1, r1)
      else if ps.Err? then (m1, Err(ps.msg))
      else (m1[line.id := ps.value], Ok(()))
  }

  /** The deserialized chord lines after the first `n` chord lines, and
      whether one of them failed. */
  function ChordlinesAfter(steps: FloatSteps, chords: map<string, PChord>, attacks: map<string, PAttack>,
                           m: map<string, seq<seq<Harmonic>>>, lines: seq<PChordLine>, n: nat):
    (r: (map<string, seq<seq<Harmonic>>>, Result<()>))
    requires n <= |lines|
    ensures r.1.Ok? ==> forall i :: 0 <= i < n ==> lines[i].id in r.0
    ensures r.1.Ok? ==> forall k :: k in m ==> k in r.0
  {
    if n == 0 then (m, Ok(()))
    else
      var (m1, r1) := ChordlinesAfter(steps, chords, attacks, m, lines, n - 1);
      var line := lines[n - 1];
      var hs := ChordlineHarmonics(steps, chords, attacks, line.chords, |line.chords|);
      if r1.Err? then (m1, r1)
      else if hs.Err? then (m1, Err(hs.msg))
      else (m1[line.id := hs.value], Ok(()))
  }

  /** Once every line has been deserialized, the last line stored under an
      identifier is the one a lookup finds. */
  lemma {:induction false} LastChordlineWins(steps: FloatSteps, chords: map<string, PChord>, attacks: map<string, PAttack>,
                                             m: map<string, seq<seq<Harmonic>>>, lines: seq<PChordLine>, n: nat, k: nat)
    requires k < n <= |lines|
    requires ChordlinesAfter(steps, chords, attacks, m, lines, n).1.Ok?
    requires forall j :: k < j < n ==> lines[j].id != lines[k].id
    ensures var line := lines[k];
      var hs := ChordlineHarmonics(steps, chords, attacks, line.chords, |line.chords|);
      hs.Ok? && ChordlinesAfter(steps, chords, attacks, m, lines, n).0[line.id] == hs.value
    decreases n
  {
    if k < n - 1 {
      LastChordlineWins(steps, chords, attacks, m, lines, n - 1, k);
    }
  }

  /** A failure stops `deserialize`: nothing after it changes the outcome. */
  lemma {:induction false} ChordlinesErrPersists(steps: FloatSteps, chords: map<string, PChord>, attacks: map<string, PAttack>,
                                                 m: map<string, seq<seq<Harmonic>>>, lines: seq<PChordLine>, n: nat, n2: nat)
    requires n <= n2 <= |lines|
    requires ChordlinesAfter(steps, chords, attacks, m, lines, n).1.Err?
    ensures ChordlinesAfter(steps, chords, attacks, m, lines, n2) == ChordlinesAfter(steps, chords, attacks, m, lines, n)
    decreases n2 - n
  {
    if n < n2 {
      ChordlinesErrPersists(steps, chords, attacks, m, lines, n, n2 - 1);
    }
  }

  lemma {:induction false} PitchlinesErrPersists(steps: FloatSteps, m: map<string, seq<(real, Shape)>>, lines: seq<PPitchLine>, n: nat, n2: nat)
    requires n <= n2 <= |lines|
    requires PitchlinesAfter(steps, m, lines, n).1.Err?
    ensures PitchlinesAfter(steps, m, lines, n2) == PitchlinesAfter(steps, m, lines, n)
    decreases n2 - n
  {
    if n < n2 {
      PitchlinesErrPersists(steps, m, lines, n, n2 - 1);
    }
  }

  lemma {:induction false} PitchFrequenciesErrPersists(steps: FloatSteps, ps: seq<PPitch>, n: nat, n2: nat)
    requires n <= n2 <= |ps|
    requires PitchFrequencies(steps, ps, n).Err?
    ensures PitchFrequencies(steps, ps, n2) == PitchFrequencies(steps, ps, n)
    decreases n2 - n
  {
    if n < n2 {
      PitchFrequenciesErrPersists(steps, ps, n, n2 - 1);
    }
  }

  lemma {:induction false} ChordlineErrPersists(steps: FloatSteps, chords: map<string, PChord>, attacks: map<string, PAttack>,
                                                line: seq<PChordAndAttack>, n: nat, n2: nat)
    requires n <= n2 <= |line|
    requires ChordlineHarmonics(steps, chords, attacks, line, n).Err?
    ensures ChordlineHarmonics(steps, chords, attacks, line, n2) == ChordlineHarmonics(steps, chords, attacks, line, n)
    decreases n2 - n
  {
    if n < n2 {
      ChordlineErrPersists(steps, chords, attacks, line, n, n2 - 1);
    }
  }

  /** One more chord of a line: an unknown one is the result of the whole
      line, a known one adds its harmonics. */
  lemma ChordlineStep(steps: FloatSteps, chords: map<string, PChord>, attacks: map<string, PAttack>,
                      line: seq<PChordAndAttack>, n: nat, acc: seq<seq<Harmonic>>)
    requires n < |line|
    requires ChordlineHarmonics(steps, chords, attacks, line, n) == Ok(acc)
    ensures line[n].chordId !in chords ==>
      ChordlineHarmonics(steps, chords, attacks, line, |line|) == Err(NotFound("chord", line[n].chordId))
    ensures line[n].chordId in chords ==>
      var c := chords[line[n].chordId].harmonics;
      ChordlineHarmonics(steps, chords, attacks, line, n + 1) ==
        Ok(acc + [ChordHarmonics(steps, c, AccentsOf(attacks, line[n].attackId), |c|)])
  {
    if line[n].chordId !in chords {
      ChordlineErrPersists(steps, chords, attacks, line, n + 1, |line|);
    }
  }

  /** A binder: the definitions by identifier, the lines still to be
      deserialized, and what `deserialize` made of them. */
  class Binder<Beat, DurationLine, HitLine, Sequence> {
    var beats: map<string, Beat>
    var chords: map<string, PChord>
    var attacks: map<string, PAttack>
    var chordlines: seq<PChordLine>
    var defaultChordline: seq<seq<Harmonic>>
    var deserializedChordlines: map<string, seq<seq<Harmonic>>>
    var durationlines: map<string, DurationLine>
    var velocitylines: map<string, PVelocityLine>
    var defaultVelocityline: PVelocityLine
    var hitlines: map<string, HitLine>
    var pitchlines: seq<PPitchLine>
    var deserializedPitchlines: map<string, seq<(real, Shape)>>
    var sequences: map<string, Sequence>

    /** `new`: nothing defined; the defaults are a single default chord and
        a single velocity 1. */
    constructor ()
      ensures beats == map[] && chords == map[] && attacks == map[] && chordlines == []
      ensures defaultChordline == [[DefaultChord]] && deserializedChordlines == map[]
      ensures durationlines == map[] && velocitylines == map[] && defaultVelocityline == DefaultVelocityline
      ensures hitlines == map[] && pitchlines == [] && deserializedPitchlines == map[] && sequences == map[]
    {
      beats, chords, attacks, chordlines := map[], map[], map[], [];
      defaultChordline, deserializedChordlines := [[DefaultChord]], map[];
      durationlines, velocitylines := map[], map[];
      defaultVelocityline := DefaultVelocityline;
      hitlines, pitchlines, deserializedPitchlines, sequences := map[], [], map[], map[];
    }

    /** `deserialize`: every pitch line, then every chord line, stored under
        its identifier; the first failure stops it, and what was stored
        before stays. */
    method Deserialize(steps: FloatSteps) returns (r: Result<()>)
      modifies this`deserializedPitchlines, this`deserializedChordlines
      ensures var (pm, pr) := PitchlinesAfter(steps, old(deserializedPitchlines), pitchlines, |pitchlines|);
        deserializedPitchlines == pm &&
        (pr.Err? ==> r == pr && deserializedChordlines == old(deserializedChordlines)) &&
        (pr.Ok? ==> ((deserializedChordlines, r) ==
          ChordlinesAfter(steps, chords, attacks, old(deserializedChordlines), chordlines, |chordlines|)))
    {
      r := DeserializePitchlines(steps);
      if r.Err? {
        return;
      }
      r := DeserializeChordlines(steps);
    }

    /** The pitch line loop of `deserialize`. */
    method DeserializePitchlines(steps: FloatSteps) returns (r: Result<()>)
      modifies this`deserializedPitchlines
      ensures (deserializedPitchlines, r) == PitchlinesAfter(steps, old(deserializedPitchlines), pitchlines, |pitchlines|)
    {
      var i := 0;
      while i < |pitchlines|
        invariant i <= |pitchlines|
        invariant (deserializedPitchlines, Ok(())) == PitchlinesAfter(steps, old(deserializedPitchlines), pitchlines, i)
      {
        var line := pitchlines[i];
        var ps := DeserializePitchline(steps, line.pitchs);
        if ps.Err? {
          PitchlinesErrPersists(steps, old(deserializedPitchlines), pitchlines, i + 1, |pitchlines|);
          return Err(ps.msg);
        }
        deserializedPitchlines := deserializedPitchlines[line.id := ps.value];
        i := i + 1;
      }
      r := Ok(());
    }

    /** The chord line loop of `deserialize`. */
    method DeserializeChordlines(steps: FloatSteps) returns (r: Result<()>)
      modifies this`deserializedChordlines
      ensures (deserializedChordlines, r) == ChordlinesAfter(steps, chords, attacks, old(deserializedChordlines), chordlines, |chordlines|)
    {
      var j := 0;
      while j < |chordlines|
        invariant j <= |chordlines|
        invariant (deserializedChordlines, Ok(())) == ChordlinesAfter(steps, chords, attacks, old(deserializedChordlines), chordlines, j)
      {
        var line := chordlines[j];
        var hs := DeserializeChordline(steps, line.chords);
        if hs.Err? {
          ChordlinesErrPersists(steps, chords, attacks, old(deserializedChordlines), chordlines, j + 1, |chordlines|);
          return Err(hs.msg);
        }
        deserializedChordlines := deserializedChordlines[line.id := hs.value];
        j := j + 1;
      }
      r := Ok(());
    }

    /** The inner loop over the pitches of a line. */
    method DeserializePitchline(steps: FloatSteps, ps: seq<PPitch>) returns (r: Result<seq<(real, Shape)>>)
      ensures r == PitchFrequencies(steps, ps, |ps|)
    {
      var pitchs := [];
      for i := 0 to |ps|
        invariant Ok(pitchs) == PitchFrequencies(steps, ps, i)
      {
        var f := steps.frequencyOf(ps[i].id);
        if f.Err? {
          PitchFrequenciesErrPersists(steps, ps, i + 1, |ps|);
          return Err(f.msg);
        }
        pitchs := pitchs + [(f.value, ps[i].transition)];
      }
      r := Ok(pitchs);
    }

    /** The loop over the chords of a line. */
    method DeserializeChordline(steps: FloatSteps, line: seq<PChordAndAttack>) returns (r: Result<seq<seq<Harmonic>>>)
      ensures r == ChordlineHarmonics(steps, chords, attacks, line, |line|)
    {
      var deserialized := [];
      for i := 0 to |line|
        invariant Ok(deserialized) == ChordlineHarmonics(steps, chords, attacks, line, i)
      {
        var ca := line[i];
        ChordlineStep(steps, chords, attacks, line, i, deserialized);
        if ca.chordId !in chords {
          return Err(NotFound("chord", ca.chordId));
        }
        var chord := chords[ca.chordId];
        var accents := AccentsOf(attacks, ca.attackId);
        var hs := DeserializeChord(steps, chord.harmonics, accents);
        deserialized := deserialized + [hs];
      }
      r := Ok(deserialized);
    }

    /** The innermost loop, over the harmonics of a chord. */
    static method DeserializeChord(steps: FloatSteps, hs: seq<PHarmonic>, accents: seq<PAccent>) returns (r: seq<Harmonic>)
      ensures r == ChordHarmonics(steps, hs, accents, |hs|)
    {
      r := [];
      for i := 0 to |hs|
        invariant r == ChordHarmonics(steps, hs, accents, i)
      {
        var h := hs[i];
        var delay := h.delay.GetOr(0.0);
        var velocity := steps.defaultVelocity;
        var transition := NoShape;
        var ovelocity := h.velocity;
        if i < |accents| {
          delay := accents[i].delay;
          ovelocity := accents[i].velocity;
        }
        if ovelocity.Some? {
          velocity := ovelocity.value.value;
          transition := ovelocity.value.transition;
        }
        r := r + [Harmonic(steps.quotient(h.freqRatio.num, h.freqRatio.den), steps.delayTicks(delay), velocity, transition)];
      }
    }

    function FetchBeat(id: string): (r: Result<Beat>)
      reads this
      ensures r.Ok? <==> id in beats
      ensures r.Ok? ==> r.value == beats[id]
      ensures r.Err? ==> r.msg == "Tseq beat " + id + " not found!"
    {
      Lookup(beats, "beat", id)
    }

    function FetchDurationline(id: string): (r: Result<DurationLine>)
      reads this
      ensures r.Ok? <==> id in durationlines
      ensures r.Ok? ==> r.value == durationlines[id]
      ensures r.Err? ==> r.msg == "Tseq durations " + id + " not found!"
    {
      Lookup(durationlines, "durations", id)
    }

    /** `fetch_velocityline`: the named line, or the default one when no
        line is named. */
    function FetchVelocityline(oid: Option<string>): (r: Result<PVelocityLine>)
      reads this
      ensures oid.None? ==> r == Ok(defaultVelocityline)
      ensures oid.Some? ==> (r.Ok? <==> oid.value in velocitylines)
      ensures oid.Some? && r.Ok? ==> r.value == velocitylines[oid.value]
      ensures oid.Some? && r.Err? ==> r.msg == "Tseq velocityline " + oid.value + " not found!"
    {
      match oid
      case Some(id) => Lookup(velocitylines, "velocityline", id)
      case None => Ok(defaultVelocityline)
    }

    function FetchChord(id: string): (r: Result<PChord>)
      reads this
      ensures r.Ok? <==> id in chords
      ensures r.Ok? ==> r.value == chords[id]
      ensures r.Err? ==> r.msg == "Tseq chord " + id + " not found!"
    {
      Lookup(chords, "chord", id)
    }

    /** `fetch_deserialized_chordline`: the named deserialized line, or the
        default line of one default chord when no line is named. */
    function FetchDeserializedChordline(oid: Option<string>): (r: Result<seq<seq<Harmonic>>>)
      reads this
      ensures oid.None? ==> r == Ok(defaultChordline)
      ensures oid.Some? ==> (r.Ok? <==> oid.value in deserializedChordlines)
      ensures oid.Some? && r.Ok? ==> r.value == deserializedChordlines[oid.value]
      ensures oid.Some? && r.Err? ==> r.msg == "Tseq chords " + oid.value + " not found!"
    {
      match oid
      case Some(id) => Lookup(deserializedChordlines, "chords", id)
      case None => Ok(defaultChordline)
    }

    function FetchHitline(id: string): (r: Result<HitLine>)
      reads this
      ensures r.Ok? <==> id in hitlines
      ensures r.Ok? ==> r.value == hitlines[id]
      ensures r.Err? ==> r.msg == "Tseq hits " + id + " not found!"
    {
      Lookup(hitlines, "hits", id)
    }

    function FetchDeserializedPitchline(id: string): (r: Result<seq<(real, Shape)>>)
      reads this
      ensures r.Ok? <==> id in deserializedPitchlines
      ensures r.Ok? ==> r.value == deserializedPitchlines[id]
      ensures r.Err? ==> r.msg == "Tseq pitchs " + id + " not found!"
    {
      Lookup(deserializedPitchlines, "pitchs", id)
    }

    function FetchSequence(id: string): (r: Result<Sequence>)
      reads this
      ensures r.Ok? <==> id in sequences
      ensures r.Ok? ==> r.value == sequences[id]
      ensures r.Err? ==> r.msg == "Tseq seq " + id + " not found!"
    {
      Lookup(sequences, "seq", id)
    }
  }

  /** A new binder's defaults: the velocity line holds a single velocity 1.0
      without transition, and the chord line a single chord of the default
      harmonic (ratio 1, no delay, velocity 1). */
  method DefaultsOfNewBinder<B, D, H, Q>() returns (v: Result<PVelocityLine>, c: Result<seq<seq<Harmonic>>>)
    ensures v.Ok? && |v.value.velocities| == 1 && v.value.velocities[0] == PVelocity(1.0, NoShape)
    ensures c.Ok? && c.value == [[Harmonic(1.0, 0, 1.0, NoShape)]]
  {
    var b := new Binder<B, D, H, Q>();
    v := b.FetchVelocityline(None);
    c := b.FetchDeserializedChordline(None);
  }
}
