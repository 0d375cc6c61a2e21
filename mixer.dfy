/** The mixer of a session (session/src/mixer.rs): its tracks and outputs,
    the switches `open` and `close` set, and the last stage of `come_out`,
    which scales every channel by the master volume and clamps each sample
    into the audio range. Tracks are seen by reference; an output by its
    model, the only thing the mixer asks it here; what an output's `open`,
    `close` or `write` does is outside the model and comes in as its
    outcome. */
module Mixers {
  import opened Wrappers
  import Dsp

  const KIND: string := "mixer"

  /** An output seen through its identifier's id and its model. */
  datatype MixerOutput = MixerOutput(id: nat, model: string)

  /** The outputs whose model is not `model`, in order. */
  function KeptOutputs(outputs: seq<MixerOutput>, model: string): (r: seq<MixerOutput>)
    ensures |r| <= |outputs|
    ensures forall o :: o in r <==> o in outputs && o.model != model
  {
    if |outputs| == 0 then []
    else
      var rest := KeptOutputs(outputs[1..], model);
      assert forall o :: o in outputs <==> o == outputs[0] || o in outputs[1..];
      if outputs[0].model != model then [outputs[0]] + rest else rest
  }

  lemma {:induction false} KeptOutputsSnoc(outputs: seq<MixerOutput>, o: MixerOutput, model: string)
    ensures KeptOutputs(outputs + [o], model) == KeptOutputs(outputs, model) + (if o.model != model then [o] else [])
  {
    if |outputs| == 0 {
      assert outputs + [o] == [o];
    } else {
      assert (outputs + [o])[1..] == outputs[1..] + [o];
      KeptOutputsSnoc(outputs[1..], o, model);
    }
  }

  /** Keeping the outputs of other models twice keeps the same ones. */
  lemma {:induction false} KeptOutputsIdempotent(outputs: seq<MixerOutput>, model: string)
    ensures KeptOutputs(KeptOutputs(outputs, model), model) == KeptOutputs(outputs, model)
  {
    if |outputs| > 0 {
      KeptOutputsIdempotent(outputs[1..], model);
      var rest := KeptOutputs(outputs[1..], model);
      if outputs[0].model != model {
        assert ([outputs[0]] + rest)[1..] == rest;
      }
    }
  }

  /** The first failure among the outcomes of the outputs, if any. */
  function FirstError(outcomes: seq<Result<()>>): (r: Option<string>)
    ensures r.None? <==> forall i :: 0 <= i < |outcomes| ==> outcomes[i].Ok?
    ensures r.Some? ==> exists i :: (0 <= i < |outcomes| && outcomes[i] == Err(r.value) &&
                                     forall j :: 0 <= j < i ==> outcomes[j].Ok?)
  {
    if |outcomes| == 0 then None
    else if outcomes[0].Err? then Some(outcomes[0].msg)
    else
      var r := FirstError(outcomes[1..]);
      assert forall i :: 1 <= i < |outcomes| ==> outcomes[i] == outcomes[1..][i - 1];
      assert r.Some? ==> exists i :: (1 <= i < |outcomes| && outcomes[i] == Err(r.value) &&
                                      forall j :: 1 <= j < i ==> outcomes[j].Ok?);
      r
  }

  lemma {:induction false} FirstErrorAt(outcomes: seq<Result<()>>, i: nat)
    requires i < |outcomes| && outcomes[i].Err? && forall j :: 0 <= j < i ==> outcomes[j].Ok?
    ensures FirstError(outcomes) == Some(outcomes[i].msg)
  {
    if i > 0 {
      assert outcomes[1..][i - 1] == outcomes[i];
      FirstErrorAt(outcomes[1..], i - 1);
    }
  }

  /** The loops of `open` and `close`: the outcome of each output in turn,
      stopping at the first failure. */
  method EachOutput(outcomes: seq<Result<()>>) returns (r: Result<()>)
    ensures r.Err? <==> FirstError(outcomes).Some?
    ensures r.Err? ==> r.msg == FirstError(outcomes).value
  {
    for i := 0 to |outcomes|
      invariant forall j :: 0 <= j < i ==> outcomes[j].Ok?
    {
      if outcomes[i].Err? {
        FirstErrorAt(outcomes, i);
        return Err(outcomes[i].msg);
      }
    }
    return Ok(());
  }

  /** A mixed sample: the channel's sample scaled by the master volume,
      clamped into the audio range. */
  function MixSample(sample: real, volume: real): (r: real)
    ensures Dsp.MIN_AUDIO <= r <= Dsp.MAX_AUDIO
    ensures Dsp.MIN_AUDIO <= sample * volume <= Dsp.MAX_AUDIO ==> r == sample * volume
  {
    Dsp.Clip(sample * volume)
  }

  /** A channel after mixing its first `ln` samples. */
  function Mixed(channel: seq<real>, volume: seq<real>, ln: nat): (r: seq<real>)
    requires ln <= |channel| && ln <= |volume|
    ensures |r| == |channel|
    ensures forall i :: 0 <= i < ln ==> Dsp.MIN_AUDIO <= r[i] <= Dsp.MAX_AUDIO
    ensures forall i :: ln <= i < |channel| ==> r[i] == channel[i]
  {
    seq(|channel|, i requires 0 <= i < |channel| => if i < ln then MixSample(channel[i], volume[i]) else channel[i])
  }

  /** The inner loop of the clamping stage on one channel. Reading past the
      channel or past the volume buffer panics, with the samples before
      already mixed. */
  method MixChannel(channel: array<real>, volume: seq<real>, ln: nat) returns (r: Run<()>)
    modifies channel
    ensures r.Done? <==> ln <= channel.Length && ln <= |volume|
    ensures r.Done? ==> channel[..] == Mixed(old(channel[..]), volume, ln)
  {
    ghost var before := channel[..];
    for i := 0 to ln
      invariant i <= channel.Length && i <= |volume|
      invariant forall k :: 0 <= k < channel.Length ==>
        channel[k] == if k < i then MixSample(before[k], volume[k]) else before[k]
    {
      if i >= channel.Length || i >= |volume| {
        return Panic("index out of bounds");
      }
      var sample := channel[i] * volume[i];
      if sample < Dsp.MIN_AUDIO {
        sample := Dsp.MIN_AUDIO;
      } else if sample > Dsp.MAX_AUDIO {
        sample := Dsp.MAX_AUDIO;
      }
      channel[i] := sample;
    }
    assert channel[..] == Mixed(before, volume, ln);
    r := Done(());
  }

  class Mixer {
    var tracks: seq<nat>
    var outputs: seq<MixerOutput>
    var tick: int
    var productive: bool

    /** `Mixer::new` (its volume ear is left out). */
    constructor (tracks: Option<seq<nat>>, outputs: Option<seq<MixerOutput>>)
      ensures this.tracks == tracks.GetOr([]) && this.outputs == outputs.GetOr([])
      ensures tick == 0 && !productive
    {
      this.tracks := tracks.GetOr([]);
      this.outputs := outputs.GetOr([]);
      tick := 0;
      productive := false;
    }

    method AddTrack(track: nat)
      modifies this
      ensures tracks == old(tracks) + [track]
      ensures outputs == old(outputs) && tick == old(tick) && productive == old(productive)
    {
      tracks := tracks + [track];
    }

    method AddOutput(output: MixerOutput)
      modifies this
      ensures outputs == old(outputs) + [output]
      ensures tracks == old(tracks) && tick == old(tick) && productive == old(productive)
    {
      outputs := outputs + [output];
    }

    /** `remove_output`: a new list of the outputs of another model. */
    method RemoveOutput(model: string)
      modifies this
      ensures outputs == KeptOutputs(old(outputs), model)
      ensures tracks == old(tracks) && tick == old(tick) && productive == old(productive)
    {
      var kept: seq<MixerOutput> := [];
      var all := outputs;
      for i := 0 to |all|
        invariant kept == KeptOutputs(all[..i], model)
        invariant all == old(outputs) && tracks == old(tracks) && tick == old(tick) && productive == old(productive)
      {
        KeptOutputsSnoc(all[..i], all[i], model);
        assert all[..i + 1] == all[..i] + [all[i]];
        if all[i].model != model {
          kept := kept + [all[i]];
        }
      }
      assert all[..|all|] == all;
      outputs := kept;
    }

    /** `open`: `outcomes` holds what each output's `open` gives. The first
        failure is returned with the tick and the switch unchanged;
        otherwise the tick restarts at 0 and the mixer is productive. */
    method Open(outcomes: seq<Result<()>>) returns (r: Result<()>)
      requires |outcomes| == |outputs|
      modifies this
      ensures r.Err? <==> FirstError(outcomes).Some?
      ensures r.Err? ==> r.msg == FirstError(outcomes).value && tick == old(tick) && productive == old(productive)
      ensures r.Ok? ==> tick == 0 && productive
      ensures tracks == old(tracks) && outputs == old(outputs)
    {
      r := EachOutput(outcomes);
      if r.Err? {
        return;
      }
      tick := 0;
      productive := true;
    }

    /** `close`: `closed` holds what each output's `close` gives. */
    method Close(closed: seq<Result<()>>) returns (r: Result<()>)
      requires |closed| == |outputs|
      modifies this
      ensures r.Err? <==> FirstError(closed).Some?
      ensures r.Err? ==> r.msg == FirstError(closed).value && productive == old(productive)
      ensures r.Ok? ==> !productive
      ensures tracks == old(tracks) && outputs == old(outputs) && tick == old(tick)
    {
      r := EachOutput(closed);
      if r.Err? {
        return;
      }
      productive := false;
    }
  }

  /** The clamping stage of `come_out`: every channel in turn, the first
      `ln` samples scaled by the master volume and clamped. The channels are
      separate buffers. */
  method ClampChannels(channels: seq<array<real>>, volume: seq<real>, ln: nat) returns (r: Run<()>)
    requires forall i, j :: 0 <= i < j < |channels| ==> channels[i] != channels[j]
    modifies set c | c in channels
    ensures r.Done? <==> |channels| == 0 || (ln <= |volume| && forall k :: 0 <= k < |channels| ==> ln <= channels[k].Length)
    ensures r.Done? ==> forall k :: 0 <= k < |channels| ==> channels[k][..] == Mixed(old(channels[k][..]), volume, ln)
  {
    for cn := 0 to |channels|
      invariant cn == 0 || ln <= |volume|
      invariant forall k :: 0 <= k < cn ==> ln <= channels[k].Length
      invariant forall k :: 0 <= k < cn ==> ln <= channels[k].Length && ln <= |volume| &&
                                            channels[k][..] == Mixed(old(channels[k][..]), volume, ln)
      invariant forall k :: cn <= k < |channels| ==> channels[k][..] == old(channels[k][..])
    {
      var m := MixChannel(channels[cn], volume, ln);
      if m.Panic? {
        return m;
      }
    }
    r := Done(());
  }
}
