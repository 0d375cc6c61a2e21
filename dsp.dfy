/** `audioize_buffer_by_clipping` (talker/src/dsp.rs): every sample of an
    index range clipped into the audio bounds. Samples are `f32` compared
    with the bounds only, so they are modelled as `real`. */
module Dsp {
  import opened Wrappers

  /** `AudioFormat::MIN_AUDIO` and `MAX_AUDIO` (talker/src/audio_format.rs). */
  const MIN_AUDIO: real := -0.99999
  const MAX_AUDIO: real := 0.99999

  /** One sample brought into the bounds: a sample out of them becomes the
      nearer bound, one within them is kept. */
  function Clip(v: real): (r: real)
    ensures MIN_AUDIO <= r <= MAX_AUDIO
    ensures MIN_AUDIO <= v <= MAX_AUDIO ==> r == v
    ensures v < MIN_AUDIO ==> r == MIN_AUDIO
    ensures v > MAX_AUDIO ==> r == MAX_AUDIO
  {
    if v < MIN_AUDIO then MIN_AUDIO else if v > MAX_AUDIO then MAX_AUDIO else v
  }

  /** The buffer with the samples of indices `start` up to `end`, excluded,
      clipped; `end` is an index, not a count. */
  function Clipped(s: seq<real>, start: nat, end: nat): (r: seq<real>)
    ensures |r| == |s|
    ensures forall i :: 0 <= i < |s| && start <= i < end ==> MIN_AUDIO <= r[i] <= MAX_AUDIO
    ensures forall i :: 0 <= i < |s| && !(start <= i < end) ==> r[i] == s[i]
    ensures forall i :: 0 <= i < |s| && MIN_AUDIO <= s[i] <= MAX_AUDIO ==> r[i] == s[i]
  {
    seq(|s|, i requires 0 <= i < |s| => if start <= i < end then Clip(s[i]) else s[i])
  }

  /** Clipping twice is clipping once. */
  lemma {:induction false} ClippedIdempotent(s: seq<real>, start: nat, end: nat)
    ensures Clipped(Clipped(s, start, end), start, end) == Clipped(s, start, end)
  {
    var once := Clipped(s, start, end);
    assert forall i :: 0 <= i < |s| ==> Clipped(once, start, end)[i] == once[i];
  }

  /** The loop of `audioize_buffer_by_clipping`. An index past the buffer
      panics once the loop reaches it, with the samples before it already
      clipped. */
  method AudioizeBufferByClipping(buffer: array<real>, start: nat, len: nat) returns (r: Run<()>)
    modifies buffer
    ensures r.Panic? <==> start < len && buffer.Length < len
    ensures r.Done? ==> buffer[..] == Clipped(old(buffer[..]), start, len)
    ensures r.Panic? ==> buffer[..] == Clipped(old(buffer[..]), start, buffer.Length)
  {
    ghost var s0 := buffer[..];
    var i := start;
    while i < len
      invariant start <= i || len <= start
      invariant i == start || (start < i <= len && i <= buffer.Length)
      invariant forall k :: 0 <= k < buffer.Length ==> buffer[k] == if start <= k < i then Clip(s0[k]) else s0[k]
    {
      if i >= buffer.Length {
        assert buffer[..] == Clipped(s0, start, buffer.Length);
        return Panic("index out of bounds");
      }
      var v := buffer[i];
      if v < MIN_AUDIO {
        buffer[i] := MIN_AUDIO;
      } else if v > MAX_AUDIO {
        buffer[i] := MAX_AUDIO;
      }
      i := i + 1;
    }
    assert buffer[..] == Clipped(s0, start, len);
    r := Done(());
  }
}
