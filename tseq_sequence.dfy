/** The integer side of turning a tseq sequence into per-harmonic event lists
    (session/src/talkers/tseq/sequence.rs): the cycling of the hit, pitch,
    chord and velocity cursors, the envelope and fade priorities, the events
    emitted for one hit and at the end, and the clipping of overlapping
    durations. Tick conversions (`to_ticks`) are a parameter `ticksOf`, and an
    event's delay a type parameter `T`. */
module TseqSequence {
  import opened Wrappers
  import opened Numeric
  import opened TseqBinder

  /** `envelope::UNDEFINED`, which is `usize::MAX`. */
  const UNDEFINED_ENVELOPE: nat := USIZE_LIMIT - 1

  datatype SequenceEvent = SequenceEvent(
    startTick: int,
    endTick: int,
    startFrequency: real,
    endFrequency: real,
    frequencyTransition: Shape,
    startVelocity: real,
    endVelocity: real,
    velocityTransition: Shape,
    fadein: bool,
    fadeout: bool,
    envelopIndex: nat)

  datatype Velocity = Velocity(envelopeIndex: nat, level: real, transition: Shape, fadein: bool, fadeout: bool)

  /** The pending event of one harmonic: what it will sound like from its hit
      on, until the next hit closes it. */
  datatype Event<T> = Event(delay: T, frequency: real, frequencyTransition: Shape, velocity: Velocity)

  /** One harmonic of a chord, its pitch gap already resolved to a ratio. */
  datatype ChordHarmonic<T> = ChordHarmonic(freqRatio: real, delay: T, velocity: Velocity)

  // ---------------------------------------------------------------------
  // Cursor cycling
  // ---------------------------------------------------------------------

  /** The step every cursor takes after a hit: to the next element, or back
      to the first after the last one. */
  function NextIndex(idx: nat, count: nat): (r: nat)
    requires idx < count
    ensures r < count
    ensures r == (idx + 1) % count
  {
    if idx < count - 1 then idx + 1 else 0
  }

  /** One more element in a cyclic walk moves the position by one, and the
      lap count by one exactly when the walk wraps. */
  lemma ModStep(m: nat, c: nat)
    requires c > 0
    ensures m % c < c - 1 ==> (m + 1) % c == m % c + 1 && (m + 1) / c == m / c
    ensures m % c == c - 1 ==> (m + 1) % c == 0 && (m + 1) / c == m / c + 1
  {
    var q, k := m / c, m % c;
    assert m == q * c + k;
    if k < c - 1 {
      assert m + 1 == q * c + (k + 1);
      DivModUnique(m + 1, c, q, k + 1);
    } else {
      assert m + 1 == (q + 1) * c + 0;
      DivModUnique(m + 1, c, q + 1, 0);
    }
  }

  /** A quotient and remainder within bounds are the Euclidean ones. */
  lemma DivModUnique(n: nat, c: nat, q: int, k: int)
    requires c > 0 && 0 <= k < c && n == q * c + k
    ensures n / c == q && n % c == k
  {
    var q0, k0 := n / c, n % c;
    assert n == q0 * c + k0;
    Distributes(q, q0, c);
    if q > q0 {
      AtLeastOnce(q - q0, c);
    } else if q < q0 {
      Distributes(q0, q, c);
      AtLeastOnce(q0 - q, c);
    }
  }

  lemma Distributes(x: int, y: int, c: int)
    ensures x * c - y * c == (x - y) * c
  {
  }

  /** A positive multiple of `c` is at least `c`. */
  lemma AtLeastOnce(d: int, c: nat)
    requires d >= 1
    ensures d * c >= c
    decreases d
  {
    if d > 1 {
      AtLeastOnce(d - 1, c);
      assert d * c == (d - 1) * c + c;
    }
  }

  /** `n` hits of a part: the hit, pitch, chord and velocity cursors move `n`
      steps, each wrapping at its own count, and the hitline start moves on
      by the hitline's length every time the hit cursor wraps. */
  method Cycle(n: nat, hitsCount: nat, pitchsCount: nat, chordsCount: nat, velocitiesCount: nat,
               hit0: nat, pitch0: nat, chord0: nat, velocity0: nat, start0: int, hitlineTicks: int)
    returns (hit: nat, pitch: nat, chord: nat, velocity: nat, hitlineStart: int)
    requires hit0 < hitsCount && pitch0 < pitchsCount && chord0 < chordsCount && velocity0 < velocitiesCount
    ensures hit == (hit0 + n) % hitsCount && pitch == (pitch0 + n) % pitchsCount
    ensures chord == (chord0 + n) % chordsCount && velocity == (velocity0 + n) % velocitiesCount
    ensures hitlineStart == start0 + ((hit0 + n) / hitsCount) * hitlineTicks
  {
    ModSmall(hit0, hitsCount);
    ModSmall(pitch0, pitchsCount);
    ModSmall(chord0, chordsCount);
    ModSmall(velocity0, velocitiesCount);
    hit, pitch, chord, velocity, hitlineStart := hit0, pitch0, chord0, velocity0, start0;
    var i := 0;
    while i < n
      invariant 0 <= i <= n
      invariant hit == (hit0 + i) % hitsCount && pitch == (pitch0 + i) % pitchsCount
      invariant chord == (chord0 + i) % chordsCount && velocity == (velocity0 + i) % velocitiesCount
      invariant hitlineStart == start0 + ((hit0 + i) / hitsCount) * hitlineTicks
    {
      ModStep(hit0 + i, hitsCount);
      ModStep(pitch0 + i, pitchsCount);
      ModStep(chord0 + i, chordsCount);
      ModStep(velocity0 + i, velocitiesCount);
      if hit < hitsCount - 1 {
        hit := hit + 1;
      } else {
        hitlineStart := hitlineStart + hitlineTicks;
        hit := 0;
      }
      pitch := NextIndex(pitch, pitchsCount);
      chord := NextIndex(chord, chordsCount);
      velocity := NextIndex(velocity, velocitiesCount);
      i := i + 1;
    }
  }

  /** A cursor that has not moved is its own position, on lap 0. */
  lemma ModSmall(k: nat, c: nat)
    requires k < c
    ensures k % c == k && k / c == 0
  {
    DivModUnique(k, c, 0, k);
  }

  // ---------------------------------------------------------------------
  // Envelope and velocity priorities
  // ---------------------------------------------------------------------

  /** The envelope of a harmonic: the chord's own if defined, else the
      velocity line's if defined, else the sequence's. */
  function EnvelopeIndex(chordEnvelope: nat, lineEnvelope: nat, seqEnvelope: nat): (r: nat)
    ensures chordEnvelope != UNDEFINED_ENVELOPE ==> r == chordEnvelope
    ensures chordEnvelope == UNDEFINED_ENVELOPE && lineEnvelope != UNDEFINED_ENVELOPE ==> r == lineEnvelope
    ensures chordEnvelope == UNDEFINED_ENVELOPE && lineEnvelope == UNDEFINED_ENVELOPE ==> r == seqEnvelope
    ensures r == chordEnvelope || r == lineEnvelope || r == seqEnvelope
    ensures r == UNDEFINED_ENVELOPE <==>
      chordEnvelope == UNDEFINED_ENVELOPE && lineEnvelope == UNDEFINED_ENVELOPE && seqEnvelope == UNDEFINED_ENVELOPE
  {
    if chordEnvelope != UNDEFINED_ENVELOPE then chordEnvelope
    else if lineEnvelope != UNDEFINED_ENVELOPE then lineEnvelope
    else seqEnvelope
  }

  /** The velocity a harmonic takes at a hit, from the chord harmonic's own
      velocity and the velocity line's: levels multiply, the chord's
      transition wins unless it has none, the fade flags are OR'd. */
  function MergeVelocity(harmonic: Velocity, line: Velocity, seqEnvelope: nat): (r: Velocity)
    ensures r.envelopeIndex == EnvelopeIndex(harmonic.envelopeIndex, line.envelopeIndex, seqEnvelope)
    ensures r.level == harmonic.level * line.level
    ensures harmonic.transition != NoShape ==> r.transition == harmonic.transition
    ensures harmonic.transition == NoShape ==> r.transition == line.transition
    ensures r.transition == NoShape <==> harmonic.transition == NoShape && line.transition == NoShape
    ensures r.fadein <==> harmonic.fadein || line.fadein
    ensures r.fadeout <==> harmonic.fadeout || line.fadeout
  {
    Velocity(
      EnvelopeIndex(harmonic.envelopeIndex, line.envelopeIndex, seqEnvelope),
      harmonic.level * line.level,
      if harmonic.transition == NoShape then line.transition else harmonic.transition,
      harmonic.fadein || line.fadein,
      harmonic.fadeout || line.fadeout)
  }

  /** The pending event a chord harmonic sets up at a hit. */
  function Updated<T>(h: ChordHarmonic<T>, pitchFrequency: real, pitchTransition: Shape,
                      line: Velocity, seqEnvelope: nat): (r: Event<T>)
    ensures r.delay == h.delay && r.frequency == pitchFrequency * h.freqRatio
    ensures r.frequencyTransition == pitchTransition
    ensures r.velocity == MergeVelocity(h.velocity, line, seqEnvelope)
  {
    Event(h.delay, pitchFrequency * h.freqRatio, pitchTransition, MergeVelocity(h.velocity, line, seqEnvelope))
  }

  /** The event a pending one becomes when the next hit closes it: it runs
      from its delay after the hit start to the hit end, from its own
      frequency and level to the next ones, and also fades out whenever the
      sequence has an envelope. */
  function Emitted<T>(ev: Event<T>, hitStart: int, hitEnd: int, hitTicks: real,
                      nextFrequency: real, nextLevel: real, seqEnvelope: nat,
                      ticksOf: (T, real) -> int): (r: SequenceEvent)
    ensures r.startTick == hitStart + ticksOf(ev.delay, hitTicks) && r.endTick == hitEnd
    ensures r.startFrequency == ev.frequency && r.endFrequency == nextFrequency
    ensures r.frequencyTransition == ev.frequencyTransition && r.velocityTransition == ev.velocity.transition
    ensures r.startVelocity == ev.velocity.level && r.endVelocity == nextLevel
    ensures r.fadein == ev.velocity.fadein
    ensures r.fadeout <==> ev.velocity.fadeout || seqEnvelope != UNDEFINED_ENVELOPE
    ensures r.envelopIndex == ev.velocity.envelopeIndex
  {
    SequenceEvent(hitStart + ticksOf(ev.delay, hitTicks), hitEnd,
                  ev.frequency, nextFrequency, ev.frequencyTransition,
                  ev.velocity.level, nextLevel, ev.velocity.transition,
                  ev.velocity.fadein, ev.velocity.fadeout || seqEnvelope != UNDEFINED_ENVELOPE,
                  ev.velocity.envelopeIndex)
  }

  /** The event left pending at the end of a sequence: it holds its
      frequency and level and always fades out. */
  function LastEvent<T>(ev: Event<T>, startTick: int, endTick: int): (r: SequenceEvent)
    ensures r.startTick == startTick && r.endTick == endTick
    ensures r.startFrequency == ev.frequency && r.endFrequency == ev.frequency
    ensures r.startVelocity == ev.velocity.level && r.endVelocity == ev.velocity.level
    ensures r.frequencyTransition == NoShape && r.velocityTransition == NoShape
    ensures r.fadein == ev.velocity.fadein && r.fadeout
    ensures r.envelopIndex == ev.velocity.envelopeIndex
  {
    SequenceEvent(startTick, endTick, ev.frequency, ev.frequency, NoShape,
                  ev.velocity.level, ev.velocity.level, NoShape, ev.velocity.fadein, true,
                  ev.velocity.envelopeIndex)
  }

  /** The harmonic of a chord that harmonic slot `h` follows: its own, or the
      chord's last one when the chord has fewer harmonics. */
  function HarmonicFor<T>(chord: seq<ChordHarmonic<T>>, h: nat): (r: ChordHarmonic<T>)
    requires |chord| > 0
    ensures h < |chord| ==> r == chord[h]
    ensures h >= |chord| ==> r == chord[|chord| - 1]
  {
    chord[Min(h, |chord| - 1)]
  }

  /** The event harmonic slot `k` emits at a hit of `chord`: its pending
      event, closed at the frequency and level of the harmonic it follows. */
  function Closing<T>(ev: Event<T>, chord: seq<ChordHarmonic<T>>, k: nat, hitStart: int, hitEnd: int,
                      hitTicks: real, pitchFrequency: real, line: Velocity, seqEnvelope: nat,
                      ticksOf: (T, real) -> int): (r: SequenceEvent)
    requires |chord| > 0
    ensures r == Emitted(ev, hitStart, hitEnd, hitTicks, pitchFrequency * HarmonicFor(chord, k).freqRatio,
                         HarmonicFor(chord, k).velocity.level * line.level, seqEnvelope, ticksOf)
  {
    var next := HarmonicFor(chord, k);
    Emitted(ev, hitStart, hitEnd, hitTicks, pitchFrequency * next.freqRatio, next.velocity.level * line.level,
            seqEnvelope, ticksOf)
  }

  // ---------------------------------------------------------------------
  // The events builder
  // ---------------------------------------------------------------------

  /** `EventsBuilder`, together with the per-harmonic event lists it fills
      (passed to it by the caller in the source). */
  class EventsBuilder<T> {
    var tick: int
    var hitStartTick: int
    var hitEndTick: int
    var harmonicCount: nat
    var chordEvents: seq<Event<T>>
    var harmonicsEvents: seq<seq<SequenceEvent>>
    /** `Event::new`, the pending event of a harmonic slot never used yet. */
    const blank: Event<T>

    /** One pending event per event list, and the harmonics of the previous
        chord among them. */
    ghost predicate Valid()
      reads this
    {
      |chordEvents| == |harmonicsEvents| && harmonicCount <= |chordEvents|
    }

    constructor(blank: Event<T>)
      ensures Valid()
      ensures tick == 0 && hitStartTick == 0 && hitEndTick == 0 && harmonicCount == 0
      ensures chordEvents == [] && harmonicsEvents == []
      ensures this.blank == blank
    {
      tick, hitStartTick, hitEndTick, harmonicCount := 0, 0, 0, 0;
      chordEvents, harmonicsEvents := [], [];
      this.blank := blank;
    }

    /** Adds an empty event list and a blank pending event per harmonic the
        chord has beyond the lists already there. */
    method Grow(n: nat)
      requires Valid()
      modifies this`chordEvents, this`harmonicsEvents
      ensures Valid()
      ensures |harmonicsEvents| == Max(n, old(|harmonicsEvents|))
      ensures forall k :: 0 <= k < |chordEvents| ==>
        chordEvents[k] == if k < old(|chordEvents|) then old(chordEvents)[k] else blank
      ensures forall k :: 0 <= k < |harmonicsEvents| ==>
        harmonicsEvents[k] == if k < old(|harmonicsEvents|) then old(harmonicsEvents)[k] else []
    {
      while |harmonicsEvents| < n
        invariant Valid()
        invariant |harmonicsEvents| == Max(n, old(|harmonicsEvents|)) || |harmonicsEvents| < n
        invariant |harmonicsEvents| >= old(|harmonicsEvents|)
        invariant forall k :: 0 <= k < |chordEvents| ==>
          chordEvents[k] == if k < old(|chordEvents|) then old(chordEvents)[k] else blank
        invariant forall k :: 0 <= k < |harmonicsEvents| ==>
          harmonicsEvents[k] == if k < old(|harmonicsEvents|) then old(harmonicsEvents)[k] else []
        decreases n - |harmonicsEvents|
      {
        harmonicsEvents := harmonicsEvents + [[]];
        chordEvents := chordEvents + [blank];
      }
    }

    /** One hit of `create_part_events`: every harmonic of the previous chord
        emits its pending event, closed by this hit, and every harmonic of the
        new chord sets up its next pending event. A previous chord followed
        by an empty one makes the source's `len() - 1` overflow. */
    method Hit(chord: seq<ChordHarmonic<T>>, pitchFrequency: real, pitchTransition: Shape,
               line: Velocity, seqEnvelope: nat, nextHitStart: int, nextHitEnd: int,
               ticksOf: (T, real) -> int)
      returns (r: Run<()>)
      requires Valid()
      modifies this`chordEvents, this`harmonicsEvents, this`hitStartTick, this`hitEndTick, this`harmonicCount
      ensures Valid()
      ensures r.Panic? <==> old(harmonicCount) > 0 && |chord| == 0
      ensures r.Panic? ==> unchanged(this)
      ensures r.Done? ==> hitStartTick == nextHitStart && hitEndTick == nextHitEnd && harmonicCount == |chord|
      ensures r.Done? ==> |harmonicsEvents| == Max(|chord|, old(|harmonicsEvents|))
      ensures r.Done? ==> forall k :: 0 <= k < |chordEvents| ==>
        chordEvents[k] == (if k < |chord| then Updated(chord[k], pitchFrequency, pitchTransition, line, seqEnvelope)
                           else old(chordEvents)[k])
      ensures r.Done? ==> forall k :: 0 <= k < |harmonicsEvents| ==>
        harmonicsEvents[k] ==
          (if k < old(harmonicCount) then
             old(harmonicsEvents)[k] + [Closing(old(chordEvents)[k], chord, k, old(hitStartTick), old(hitEndTick),
                                                (Min(old(hitEndTick), nextHitStart) - old(hitStartTick)) as real,
                                                pitchFrequency, line, seqEnvelope, ticksOf)]
           else if k < old(|harmonicsEvents|) then old(harmonicsEvents)[k]
           else [])
    {
      if harmonicCount > 0 && |chord| == 0 {
        return Panic("attempt to subtract with overflow");
      }
      Grow(|chord|);
      var hitTicks := (Min(hitEndTick, nextHitStart) - hitStartTick) as real;
      CloseAndUpdate(chord, pitchFrequency, pitchTransition, line, seqEnvelope, hitTicks, ticksOf);
      hitStartTick, hitEndTick, harmonicCount := nextHitStart, nextHitEnd, |chord|;
      return Done(());
    }

    /** The harmonic loop of a hit: slot `k` of the previous chord emits its
        pending event, then slot `k` of the new chord becomes its next
        pending event. */
    method CloseAndUpdate(chord: seq<ChordHarmonic<T>>, pitchFrequency: real, pitchTransition: Shape,
                          line: Velocity, seqEnvelope: nat, hitTicks: real, ticksOf: (T, real) -> int)
      requires Valid() && |chord| <= |chordEvents|
      requires |chord| > 0 || harmonicCount == 0
      modifies this`chordEvents, this`harmonicsEvents
      ensures Valid()
      ensures |chordEvents| == old(|chordEvents|) && |harmonicsEvents| == old(|harmonicsEvents|)
      ensures forall k :: 0 <= k < |chordEvents| ==>
        chordEvents[k] == (if k < |chord| then Updated(chord[k], pitchFrequency, pitchTransition, line, seqEnvelope)
                           else old(chordEvents)[k])
      ensures forall k :: 0 <= k < |harmonicsEvents| ==>
        harmonicsEvents[k] ==
          (if k < harmonicCount then
             old(harmonicsEvents)[k] + [Closing(old(chordEvents)[k], chord, k, hitStartTick, hitEndTick, hitTicks,
                                                pitchFrequency, line, seqEnvelope, ticksOf)]
           else old(harmonicsEvents)[k])
    {
      var maxCount := Max(harmonicCount, |chord|);
      var events, lists := chordEvents, harmonicsEvents;
      for h := 0 to maxCount
        invariant |events| == |chordEvents| && |lists| == |harmonicsEvents|
        invariant forall k :: 0 <= k < |events| ==>
          events[k] == (if k < h && k < |chord| then Updated(chord[k], pitchFrequency, pitchTransition, line, seqEnvelope)
                        else chordEvents[k])
        invariant forall k :: 0 <= k < |lists| ==>
          lists[k] ==
            (if k < h && k < harmonicCount then
               harmonicsEvents[k] + [Closing(chordEvents[k], chord, k, hitStartTick, hitEndTick, hitTicks,
                                             pitchFrequency, line, seqEnvelope, ticksOf)]
             else harmonicsEvents[k])
      {
        var next := HarmonicFor(chord, h);
        if h < harmonicCount {
          var ev := Closing(events[h], chord, h, hitStartTick, hitEndTick, hitTicks, pitchFrequency, line, seqEnvelope, ticksOf);
          lists := lists[h := lists[h] + [ev]];
        }
        if h < |chord| {
          events := events[h := Updated(next, pitchFrequency, pitchTransition, line, seqEnvelope)];
        }
      }
      chordEvents, harmonicsEvents := events, lists;
    }

    /** `create_last_events`: the harmonics of the last chord that have a
        frequency emit their pending event, up to the last hit's end, or to
        the builder's tick when that end is undefined. */
    method CreateLastEvents(undefinedTicks: int, ticksOf: (T, real) -> int)
      requires Valid()
      modifies this`harmonicsEvents
      ensures Valid()
      ensures |harmonicsEvents| == old(|harmonicsEvents|)
      ensures forall k :: 0 <= k < |harmonicsEvents| ==>
        var endTick := if hitEndTick == undefinedTicks then tick else hitEndTick;
        var ev := chordEvents[k];
        harmonicsEvents[k] ==
          (if k < harmonicCount && ev.frequency > 0.0 then
             old(harmonicsEvents)[k] + [LastEvent(ev, hitStartTick + ticksOf(ev.delay, (endTick - hitStartTick) as real), endTick)]
           else old(harmonicsEvents)[k])
    {
      var endTick := if hitEndTick == undefinedTicks then tick else hitEndTick;
      var hitTicks := (endTick - hitStartTick) as real;
      for h := 0 to harmonicCount
        invariant |harmonicsEvents| == old(|harmonicsEvents|)
        invariant forall k :: 0 <= k < |harmonicsEvents| ==>
          var ev := chordEvents[k];
          harmonicsEvents[k] ==
            (if k < h && ev.frequency > 0.0 then
               old(harmonicsEvents)[k] + [LastEvent(ev, hitStartTick + ticksOf(ev.delay, hitTicks), endTick)]
             else old(harmonicsEvents)[k])
      {
        var ev := chordEvents[h];
        if ev.frequency > 0.0 {
          harmonicsEvents := harmonicsEvents[h := harmonicsEvents[h] + [LastEvent(ev, hitStartTick + ticksOf(ev.delay, hitTicks), endTick)]];
        }
      }
    }
  }

  // ---------------------------------------------------------------------
  // Overflowing durations
  // ---------------------------------------------------------------------

  /** An event list with every event's end clipped to the next event's start. */
  function Limited(s: seq<SequenceEvent>): (r: seq<SequenceEvent>)
  {
    seq(|s|, i requires 0 <= i < |s| => ClipAt(s, i))
  }

  /** Event `i` of a list, its end clipped to the next event's start. */
  function ClipAt(s: seq<SequenceEvent>, i: nat): SequenceEvent
    requires i < |s|
  {
    if i < |s| - 1 && s[i].endTick > s[i + 1].startTick then s[i].(endTick := s[i + 1].startTick) else s[i]
  }

  /** Clipping keeps the list's length, every start and every field but the
      end, ends each event at the earlier of its end and the next start,
      keeps the last event, and leaves no event running past its successor's
      start. */
  lemma LimitedProperties(s: seq<SequenceEvent>)
    ensures |Limited(s)| == |s|
    ensures forall i :: 0 <= i < |s| ==> Limited(s)[i] == s[i].(endTick := Limited(s)[i].endTick)
    ensures forall i :: 0 <= i < |s| - 1 ==> Limited(s)[i].endTick == Min(s[i].endTick, s[i + 1].startTick)
    ensures |s| > 0 ==> Limited(s)[|s| - 1] == s[|s| - 1]
    ensures forall i :: 0 <= i < |s| - 1 ==> Limited(s)[i].endTick <= Limited(s)[i + 1].startTick
  {
    var l := Limited(s);
    forall i | 0 <= i < |s| - 1
      ensures l[i].endTick <= l[i + 1].startTick
    {
      assert l[i + 1].startTick == s[i + 1].startTick;
    }
  }

  /** Clipping a clipped list changes nothing. */
  lemma LimitedIdempotent(s: seq<SequenceEvent>)
    ensures Limited(Limited(s)) == Limited(s)
  {
    LimitedProperties(s);
    LimitedProperties(Limited(s));
  }

  /** The inner loop of `limit_overflowing_durations` on one harmonic's
      events, in place; on an empty list `len() - 1` overflows. */
  method LimitHarmonicEvents(a: array<SequenceEvent>) returns (r: Run<()>)
    modifies a
    ensures r.Panic? <==> a.Length == 0
    ensures a[..] == Limited(old(a[..]))
  {
    if a.Length == 0 {
      return Panic("attempt to subtract with overflow");
    }
    ghost var s := a[..];
    for idx := 0 to a.Length - 1
      invariant forall i :: 0 <= i < a.Length ==> a[i] == if i < idx then Limited(s)[i] else s[i]
    {
      if a[idx].endTick > a[idx + 1].startTick {
        a[idx] := a[idx].(endTick := a[idx + 1].startTick);
      }
    }
    assert a[..] == Limited(s);
    return Done(());
  }

  /** `limit_overflowing_durations` over every harmonic's list, in order; an
      empty list stops it with a panic, after the lists before it were
      clipped. */
  method LimitOverflowingDurations(hs: seq<array<SequenceEvent>>) returns (r: Run<()>)
    requires forall i, j :: 0 <= i < j < |hs| ==> hs[i] != hs[j]
    modifies set i | 0 <= i < |hs| :: hs[i]
    ensures r.Done? <==> forall i :: 0 <= i < |hs| ==> hs[i].Length > 0
    ensures r.Done? ==> forall i :: 0 <= i < |hs| ==> hs[i][..] == Limited(old(hs[i][..]))
  {
    for k := 0 to |hs|
      invariant forall i :: 0 <= i < k ==> hs[i].Length > 0
      invariant forall i :: 0 <= i < k ==> hs[i][..] == Limited(old(hs[i][..]))
      invariant forall i :: k <= i < |hs| ==> hs[i][..] == old(hs[i][..])
    {
      r := LimitHarmonicEvents(hs[k]);
      if r.Panic? {
        return;
      }
    }
    return Done(());
  }

  // ---------------------------------------------------------------------
  // Event reminder
  // ---------------------------------------------------------------------

  /** `EventReminder`: where a player stopped in its event list, whether it
      sent its set-up events yet, and the last value it produced. */
  class EventReminder {
    var initialized: bool
    var index: nat
    var lastValue: real

    constructor()
      ensures !initialized && index == 0 && lastValue == 0.0
    {
      initialized, index, lastValue := false, 0, 0.0;
    }
  }
}
