/** The definitions read from a tseq text, by kind and identifier
    (session/src/talkers/tseq/parsing_result.rs). The records that this model
    does not read are type parameters: beats `B`, duration lines `D`, hit
    lines `H` and sequences `Q`. */
module TseqParsingResult {
  import opened Wrappers
  import opened TseqBinder

  datatype ParsingResult<B, D, H, Q> = ParsingResult(
    beats: map<string, B>,
    chords: map<string, PChord>,
    chordlines: map<string, PChordLine>,
    durationlines: map<string, D>,
    velocitylines: map<string, PVelocityLine>,
    hitlines: map<string, H>,
    pitchlines: map<string, seq<(real, Shape)>>,
    sequences: map<string, Q>)
  {
    function FetchBeat(id: string): (r: Result<B>)
      ensures r.Ok? <==> id in beats
      ensures r.Ok? ==> r.value == beats[id]
      ensures r.Err? ==> r.msg == NotFound("beat", id)
    {
      Lookup(beats, "beat", id)
    }

    function FetchDurationline(id: string): (r: Result<D>)
      ensures r.Ok? <==> id in durationlines
      ensures r.Ok? ==> r.value == durationlines[id]
      ensures r.Err? ==> r.msg == NotFound("durations", id)
    {
      Lookup(durationlines, "durations", id)
    }

    function FetchVelocityline(id: string): (r: Result<PVelocityLine>)
      ensures r.Ok? <==> id in velocitylines
      ensures r.Ok? ==> r.value == velocitylines[id]
      ensures r.Err? ==> r.msg == NotFound("velocityline", id)
    {
      Lookup(velocitylines, "velocityline", id)
    }

    function FetchChord(id: string): (r: Result<PChord>)
      ensures r.Ok? <==> id in chords
      ensures r.Ok? ==> r.value == chords[id]
      ensures r.Err? ==> r.msg == NotFound("chord", id)
    {
      Lookup(chords, "chord", id)
    }

    function FetchChordline(id: string): (r: Result<PChordLine>)
      ensures r.Ok? <==> id in chordlines
      ensures r.Ok? ==> r.value == chordlines[id]
      ensures r.Err? ==> r.msg == NotFound("chords", id)
    {
      Lookup(chordlines, "chords", id)
    }

    function FetchHitline(id: string): (r: Result<H>)
      ensures r.Ok? <==> id in hitlines
      ensures r.Ok? ==> r.value == hitlines[id]
      ensures r.Err? ==> r.msg == NotFound("hits", id)
    {
      Lookup(hitlines, "hits", id)
    }

    function FetchPitchline(id: string): (r: Result<seq<(real, Shape)>>)
      ensures r.Ok? <==> id in pitchlines
      ensures r.Ok? ==> r.value == pitchlines[id]
      ensures r.Err? ==> r.msg == NotFound("pitchs", id)
    {
      Lookup(pitchlines, "pitchs", id)
    }

    function FetchSequence(id: string): (r: Result<Q>)
      ensures r.Ok? <==> id in sequences
      ensures r.Ok? ==> r.value == sequences[id]
      ensures r.Err? ==> r.msg == NotFound("seq", id)
    {
      Lookup(sequences, "seq", id)
    }
  }

  /** `new`: the eight tables, all empty. */
  function NewParsingResult<B, D, H, Q>(): (r: ParsingResult<B, D, H, Q>)
    ensures r.beats == map[] && r.chords == map[] && r.chordlines == map[] && r.durationlines == map[]
    ensures r.velocitylines == map[] && r.hitlines == map[] && r.pitchlines == map[] && r.sequences == map[]
  {
    ParsingResult(map[], map[], map[], map[], map[], map[], map[], map[])
  }
}
