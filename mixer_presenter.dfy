/** The editor's view of a mixer (src/mixer_presenter.rs): its identifier
    and one output presenter per output, which the user can add or remove. */
module MixerPresenters {
  import opened Wrappers
  import opened OutputPresenters

  /** An output of the mixer as `OutputPresenter::from` reads it. */
  datatype OutputView = OutputView(id: nat, codecName: string, sampleRate: nat, channelLayout: string, filePath: string)

  /** The presenter shows `view`. */
  ghost predicate Shows(p: OutputPresenter, view: OutputView)
    reads p
  {
    p.id == view.id && p.codecName == view.codecName && p.sampleRate == view.sampleRate &&
    p.channelLayout == view.channelLayout && p.filePath == view.filePath
  }

  /** The position of the first output with id `id`. */
  function IdIndex(outputs: seq<OutputPresenter>, id: nat): (r: Option<nat>)
    ensures r.Some? ==> r.value < |outputs| && outputs[r.value].id == id
    ensures r.Some? ==> forall j :: 0 <= j < r.value ==> outputs[j].id != id
    ensures r.None? ==> forall j :: 0 <= j < |outputs| ==> outputs[j].id != id
  {
    if |outputs| == 0 then None
    else if outputs[0].id == id then Some(0)
    else
      var r := IdIndex(outputs[1..], id);
      assert forall j :: 1 <= j < |outputs| ==> outputs[j] == outputs[1..][j - 1];
      if r.Some? then Some(r.value + 1) else None
  }

  /** The outputs without the first one with id `id`. */
  function WithoutFirst(outputs: seq<OutputPresenter>, id: nat): seq<OutputPresenter> {
    match IdIndex(outputs, id)
    case None => outputs
    case Some(i) => outputs[..i] + outputs[i + 1..]
  }

  /** How many outputs have id `id`. */
  function CountId(outputs: seq<OutputPresenter>, id: nat): (r: nat)
    ensures r <= |outputs|
    ensures r > 0 <==> exists j :: 0 <= j < |outputs| && outputs[j].id == id
  {
    if |outputs| == 0 then 0
    else
      assert forall j :: 0 < j < |outputs| ==> outputs[j] == outputs[1..][j - 1];
      (if outputs[0].id == id then 1 else 0) + CountId(outputs[1..], id)
  }

  lemma {:induction false} CountIdConcat(a: seq<OutputPresenter>, b: seq<OutputPresenter>, id: nat)
    ensures CountId(a + b, id) == CountId(a, id) + CountId(b, id)
  {
    if |a| > 0 {
      assert (a + b)[1..] == a[1..] + b;
      CountIdConcat(a[1..], b, id);
    } else {
      assert a + b == b;
    }
  }

  lemma {:induction false} CountIdNone(a: seq<OutputPresenter>, id: nat)
    requires forall j :: 0 <= j < |a| ==> a[j].id != id
    ensures CountId(a, id) == 0
  {
    if |a| > 0 {
      assert forall j :: 0 <= j < |a| - 1 ==> a[1..][j] == a[j + 1];
      CountIdNone(a[1..], id);
    }
  }

  /** Removing drops exactly one output with the id when there is one, and
      keeps the others in order. */
  lemma {:induction false} WithoutFirstCount(outputs: seq<OutputPresenter>, id: nat)
    ensures CountId(outputs, id) > 0 ==> CountId(WithoutFirst(outputs, id), id) == CountId(outputs, id) - 1
    ensures CountId(outputs, id) > 0 ==> |WithoutFirst(outputs, id)| == |outputs| - 1
    ensures CountId(outputs, id) == 0 ==> WithoutFirst(outputs, id) == outputs
  {
    match IdIndex(outputs, id)
    case None => CountIdNone(outputs, id);
    case Some(i) =>
      assert outputs == outputs[..i] + [outputs[i]] + outputs[i + 1..];
      CountIdConcat(outputs[..i] + [outputs[i]], outputs[i + 1..], id);
      CountIdConcat(outputs[..i], [outputs[i]], id);
      CountIdConcat(outputs[..i], outputs[i + 1..], id);
      CountIdNone(outputs[..i], id);
      assert CountId([outputs[i]], id) == 1;
  }

  class MixerPresenter {
    const id: nat
    const name: string
    var outputs: seq<OutputPresenter>

    /** `MixerPresenter::new`: a new presenter for every output of the
        mixer, in order. */
    constructor (id: nat, name: string, mixerOutputs: seq<OutputView>)
      ensures this.id == id && this.name == name
      ensures |outputs| == |mixerOutputs|
      ensures forall i :: 0 <= i < |outputs| ==> fresh(outputs[i]) && Shows(outputs[i], mixerOutputs[i])
    {
      this.id := id;
      this.name := name;
      var presenters: seq<OutputPresenter> := [];
      for i := 0 to |mixerOutputs|
        invariant |presenters| == i
        invariant forall k :: 0 <= k < i ==> fresh(presenters[k]) && Shows(presenters[k], mixerOutputs[k])
      {
        var o := mixerOutputs[i];
        var p := new OutputPresenter(o.id, o.codecName, o.sampleRate, o.channelLayout, o.filePath);
        presenters := presenters + [p];
      }
      outputs := presenters;
    }

    /** `add_output`. */
    method AddOutput(output: OutputPresenter)
      modifies this
      ensures outputs == old(outputs) + [output]
    {
      outputs := outputs + [output];
    }

    /** `remove_output`: the loop stops at the first output with the id. */
    method RemoveOutput(outputId: nat)
      modifies this
      ensures outputs == WithoutFirst(old(outputs), outputId)
    {
      for idx := 0 to |outputs|
        invariant outputs == old(outputs)
        invariant forall j :: 0 <= j < idx ==> outputs[j].id != outputId
      {
        if outputs[idx].id == outputId {
          assert IdIndex(outputs, outputId) == Some(idx);
          outputs := outputs[..idx] + outputs[idx + 1..];
          return;
        }
      }
    }
  }
}
