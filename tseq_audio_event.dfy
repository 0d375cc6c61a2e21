/** The tick bookkeeping of tseq audio events
    (session/src/talkers/tseq/audio_event.rs): the fade-in and fade-out
    ticks, the base every event carries, which curve core a transition
    selects, how many samples one call writes, and the frequency and velocity
    events made from per-harmonic sequence events. The sample values the
    cores compute are not modelled: a core is only the kind of curve and its
    two end values. The lengths of the fade tables are a parameter. */
module TseqAudioEvent {
  import opened Numeric
  import opened TseqBinder
  import opened TseqSequence

  /** `fadein::LEN` and `fadeout::LEN`, the lengths of the generated fade
      tables. */
  datatype FadeLengths = FadeLengths(fadein: nat, fadeout: nat)

  /** The tick at which the fade-in is over: `LEN` ticks after the start, but
      never past the end; the start itself without a fade-in. */
  function FadeinTick(startTick: int, endTick: int, fadein: bool, fades: FadeLengths): (r: int)
    ensures fadein ==> r == Min(startTick + fades.fadein, endTick)
    ensures !fadein ==> r == startTick
    ensures startTick <= endTick ==> startTick <= r <= endTick
  {
    if fadein then Min(startTick + fades.fadein, endTick) else startTick
  }

  /** The tick at which the fade-out begins: `LEN` ticks before the end, but
      never before the start; the end itself without a fade-out. */
  function FadeoutTick(startTick: int, endTick: int, fadeout: bool, fades: FadeLengths): (r: int)
    ensures fadeout ==> r == Max(startTick, endTick - fades.fadeout)
    ensures !fadeout ==> r == endTick
    ensures startTick <= endTick ==> startTick <= r <= endTick
  {
    if fadeout then Max(startTick, endTick - fades.fadeout) else endTick
  }

  /** An event long enough for both fades has its fade-in over before its
      fade-out begins. */
  lemma FadesOrdered(startTick: int, endTick: int, fadein: bool, fadeout: bool, fades: FadeLengths)
    requires endTick - startTick >= fades.fadein + fades.fadeout
    ensures startTick <= FadeinTick(startTick, endTick, fadein, fades)
    ensures FadeinTick(startTick, endTick, fadein, fades) <= FadeoutTick(startTick, endTick, fadeout, fades)
    ensures FadeoutTick(startTick, endTick, fadeout, fades) <= endTick
  {
  }

  datatype AudioEventBase = AudioEventBase(startTick: int, fadeinTick: int, fadeoutTick: int, endTick: int,
                                           envelopeIndex: nat)

  /** The core of an event: which curve it follows from its start value to
      its end value. */
  datatype Core =
    | ConstantCore(value: real)
    | LinearCore(startValue: real, endValue: real)
    | CurveCore(shape: Shape, startValue: real, endValue: real)

  datatype AudioEvent = AudioEvent(base: AudioEventBase, core: Core)

  /** The core a transition selects: none gives a constant at the start
      value, `Linear` a straight line, the other shapes their interpolated
      ramp table. */
  function CoreOf(startValue: real, endValue: real, transition: Shape): (r: Core)
    ensures transition == NoShape <==> r == ConstantCore(startValue)
    ensures transition == Linear <==> r == LinearCore(startValue, endValue)
    ensures transition != NoShape && transition != Linear <==> r == CurveCore(transition, startValue, endValue)
  {
    match transition
    case NoShape => ConstantCore(startValue)
    case Linear => LinearCore(startValue, endValue)
    case _ => CurveCore(transition, startValue, endValue)
  }

  /** `create`: the base holds the event's ticks, its two fade ticks and its
      envelope, the core follows the transition. */
  function Create(startTick: int, endTick: int, startValue: real, endValue: real, transition: Shape,
                  fadein: bool, fadeout: bool, envelopIndex: nat, fades: FadeLengths): (r: AudioEvent)
    ensures r.base.startTick == startTick && r.base.endTick == endTick
    ensures r.base.fadeinTick == FadeinTick(startTick, endTick, fadein, fades)
    ensures r.base.fadeoutTick == FadeoutTick(startTick, endTick, fadeout, fades)
    ensures r.base.envelopeIndex == envelopIndex
    ensures r.core == CoreOf(startValue, endValue, transition)
  {
    var base := AudioEventBase(startTick, FadeinTick(startTick, endTick, fadein, fades),
                               FadeoutTick(startTick, endTick, fadeout, fades), endTick, envelopIndex);
    AudioEvent(base, CoreOf(startValue, endValue, transition))
  }

  /** The number of samples `assign_buffer` writes from `tick` into a buffer
      of `len`: the difference to the end is cast to `usize`, so it wraps
      when the tick is past the end. */
  function OutLen(endTick: int, tick: int, len: nat): (r: nat)
    ensures r <= len
    ensures tick <= endTick < tick + USIZE_LIMIT ==> r == Min(endTick - tick, len)
    ensures endTick < tick && len <= USIZE_LIMIT - (tick - endTick) ==> r == len
  {
    Min((endTick - tick) % USIZE_LIMIT, len)
  }

  // ---------------------------------------------------------------------
  // Events from sequences
  // ---------------------------------------------------------------------

  /** The frequency event of a sequence event: over the same ticks, with
      neither fade nor envelope. */
  function FrequencyEvent(e: SequenceEvent, fades: FadeLengths): (r: AudioEvent)
    ensures r.base == AudioEventBase(e.startTick, e.startTick, e.endTick, e.endTick, UNDEFINED_ENVELOPE)
    ensures r.core == CoreOf(e.startFrequency, e.endFrequency, e.frequencyTransition)
  {
    Create(e.startTick, e.endTick, e.startFrequency, e.endFrequency, e.frequencyTransition,
           false, false, UNDEFINED_ENVELOPE, fades)
  }

  /** Whether a sequence event's envelope, known and of length `envelopeLens[i]`,
      ends before the event does. */
  predicate EnvelopeCuts(e: SequenceEvent, envelopeLens: seq<nat>)
  {
    e.envelopIndex < |envelopeLens| && e.startTick + envelopeLens[e.envelopIndex] < e.endTick
  }

  /** The velocity event of a sequence event: cut at the end of its envelope,
      and then faded out, exactly when that envelope ends before the event;
      otherwise over the event's own ticks with its own fade-out. */
  function VelocityEvent(e: SequenceEvent, envelopeLens: seq<nat>, fades: FadeLengths): (r: AudioEvent)
    ensures r.base.startTick == e.startTick && r.base.envelopeIndex == e.envelopIndex
    ensures EnvelopeCuts(e, envelopeLens) ==>
      r.base.endTick == e.startTick + envelopeLens[e.envelopIndex] &&
      r.base.fadeoutTick == FadeoutTick(e.startTick, r.base.endTick, true, fades)
    ensures !EnvelopeCuts(e, envelopeLens) ==>
      r.base.endTick == e.endTick && r.base.fadeoutTick == FadeoutTick(e.startTick, e.endTick, e.fadeout, fades)
    ensures r.base.endTick <= e.endTick
    ensures r.base.fadeinTick == FadeinTick(e.startTick, r.base.endTick, e.fadein, fades)
    ensures r.core == CoreOf(e.startVelocity, e.endVelocity, e.velocityTransition)
  {
    var cut := EnvelopeCuts(e, envelopeLens);
    var endTick := if cut then e.startTick + envelopeLens[e.envelopIndex] else e.endTick;
    Create(e.startTick, endTick, e.startVelocity, e.endVelocity, e.velocityTransition,
           e.fadein, e.fadeout || cut, e.envelopIndex, fades)
  }

  /** `create_from_sequences`: one frequency list and one velocity list per
      harmonic, each with one event per sequence event, in order. Only the
      lengths of the envelopes matter here. */
  method CreateFromSequences(harmonics: seq<seq<SequenceEvent>>, envelopeLens: seq<nat>, fades: FadeLengths)
    returns (frequencies: seq<seq<AudioEvent>>, velocities: seq<seq<AudioEvent>>)
    ensures |frequencies| == |harmonics| && |velocities| == |harmonics|
    ensures forall i :: 0 <= i < |harmonics| ==>
      |frequencies[i]| == |harmonics[i]| && |velocities[i]| == |harmonics[i]|
    ensures forall i, j :: 0 <= i < |harmonics| && 0 <= j < |harmonics[i]| ==>
      frequencies[i][j] == FrequencyEvent(harmonics[i][j], fades) &&
      velocities[i][j] == VelocityEvent(harmonics[i][j], envelopeLens, fades)
  {
    frequencies, velocities := [], [];
    for i := 0 to |harmonics|
      invariant |frequencies| == i && |velocities| == i
      invariant forall h :: 0 <= h < i ==>
        |frequencies[h]| == |harmonics[h]| && |velocities[h]| == |harmonics[h]|
      invariant forall h, j :: 0 <= h < i && 0 <= j < |harmonics[h]| ==>
        frequencies[h][j] == FrequencyEvent(harmonics[h][j], fades) &&
        velocities[h][j] == VelocityEvent(harmonics[h][j], envelopeLens, fades)
    {
      var frequencyEvents, velocityEvents := HarmonicEvents(harmonics[i], envelopeLens, fades);
      frequencies := frequencies + [frequencyEvents];
      velocities := velocities + [velocityEvents];
    }
  }

  /** The inner loop of `create_from_sequences`, over one harmonic. */
  method HarmonicEvents(events: seq<SequenceEvent>, envelopeLens: seq<nat>, fades: FadeLengths)
    returns (frequencyEvents: seq<AudioEvent>, velocityEvents: seq<AudioEvent>)
    ensures |frequencyEvents| == |events| && |velocityEvents| == |events|
    ensures forall j :: 0 <= j < |events| ==>
      frequencyEvents[j] == FrequencyEvent(events[j], fades) &&
      velocityEvents[j] == VelocityEvent(events[j], envelopeLens, fades)
  {
    frequencyEvents, velocityEvents := [], [];
    for j := 0 to |events|
      invariant |frequencyEvents| == j && |velocityEvents| == j
      invariant forall k :: 0 <= k < j ==>
        frequencyEvents[k] == FrequencyEvent(events[k], fades) &&
        velocityEvents[k] == VelocityEvent(events[k], envelopeLens, fades)
    {
      var event := events[j];
      frequencyEvents := frequencyEvents + [Create(event.startTick, event.endTick, event.startFrequency,
                                                   event.endFrequency, event.frequencyTransition,
                                                   false, false, UNDEFINED_ENVELOPE, fades)];
      var velocityEndTick := event.endTick;
      var velocityFadeout := event.fadeout;
      if event.envelopIndex < |envelopeLens| {
        var envEndTick := event.startTick + envelopeLens[event.envelopIndex];
        if envEndTick < event.endTick {
          velocityEndTick := envEndTick;
          velocityFadeout := true;
        }
      }
      velocityEvents := velocityEvents + [Create(event.startTick, velocityEndTick, event.startVelocity,
                                                 event.endVelocity, event.velocityTransition,
                                                 event.fadein, velocityFadeout, event.envelopIndex, fades)];
    }
  }
}
