/** The band (session/src/band.rs): the talkers of a session by id, and
    the mixers by id. A talker is seen from the band as the instance its
    talks refer to, the port types of its voices and its ears; a mixer as
    the channel counts of its outputs, its talker being the band talker
    stored under the mixer's id. The ears of the other talkers are
    rewritten when a talker is removed or replaced, so that no talk is
    left on a talker that is gone or on a port whose type changed. */
module Bands {
  import opened Wrappers
  import opened Numeric
  import opened Voices
  import opened TalkerEar

  datatype Member = Member(instance: nat, ports: seq<PortType>, ears: seq<Ear>)

  datatype Mixer = Mixer(outputs: seq<nat>)

  function TalkerNotFound(id: nat): string { "Talker " + FormatNat(id) + " not found!" }

  /** The ports from `lo` up to `hi`, excluded. */
  function Range(lo: nat, hi: nat): (r: set<nat>)
    ensures forall p: nat :: p in r <==> lo <= p < hi
    decreases hi - lo
  {
    if lo >= hi then {} else {lo} + Range(lo + 1, hi)
  }

  /** The ports `replace_talker` invalidates, as written: the ports both
      talkers have whose types differ, and the ports only the new talker
      has. */
  function InvalidatedPorts(oldPorts: seq<PortType>, newPorts: seq<PortType>): (r: set<nat>)
    ensures forall p: nat :: p in r <==>
      (p < |oldPorts| && p < |newPorts| && oldPorts[p] != newPorts[p]) || |oldPorts| <= p < |newPorts|
    ensures forall p: nat :: p in r ==> p < |newPorts|
  {
    var less := Min(|oldPorts|, |newPorts|);
    (set p: nat | p < less && newPorts[p] != oldPorts[p]) + Range(less, |newPorts|)
  }

  /** The ports that evidently should be invalidated: every port of the
      old talker that the new talker does not have with the same type. */
  function IntendedInvalidatedPorts(oldPorts: seq<PortType>, newPorts: seq<PortType>): (r: set<nat>)
    ensures forall p: nat :: p < |oldPorts| ==>
      (p !in r <==> p < |newPorts| && newPorts[p] == oldPorts[p])
    ensures InvalidatedPorts(oldPorts, newPorts) <= r
  {
    InvalidatedPorts(oldPorts, newPorts) + Range(|newPorts|, |oldPorts|)
  }

  /** The two loops of `replace_talker` that collect the invalidated ports. */
  method BuildInvalidatedPorts(oldPorts: seq<PortType>, newPorts: seq<PortType>) returns (r: set<nat>)
    ensures r == InvalidatedPorts(oldPorts, newPorts)
  {
    r := {};
    var less := Min(|oldPorts|, |newPorts|);
    for p := 0 to less
      invariant forall q: nat :: q in r <==> q < p && newPorts[q] != oldPorts[q]
    {
      if newPorts[p] != oldPorts[p] {
        r := r + {p};
      }
    }
    for p := less to |newPorts|
      invariant forall q: nat :: q in r <==> (q < less && newPorts[q] != oldPorts[q]) || less <= q < p
    {
      r := r + {p};
    }
  }

  /** The same loops with the ports only the old talker has added. */
  method BuildIntendedInvalidatedPorts(oldPorts: seq<PortType>, newPorts: seq<PortType>) returns (r: set<nat>)
    ensures r == IntendedInvalidatedPorts(oldPorts, newPorts)
  {
    r := BuildInvalidatedPorts(oldPorts, newPorts);
    ghost var written := r;
    var less := Min(|oldPorts|, |newPorts|);
    for p := less to |oldPorts|
      invariant forall q: nat :: q in r <==> q in written || less <= q < p
    {
      r := r + {p};
    }
  }

  /** What `sup_talker` does to an ear of another talker. */
  function EarAfterSup(ear: Ear, id: nat): Ear {
    if IsListeningTalker(ear, id) then SupTalker(ear, id) else ear
  }

  /** What `replace_talker` does to an ear of another talker: the talks on
      invalidated ports go, and the remaining talks of the replaced talker
      move to the new one. */
  function EarAfterReplace(ear: Ear, id: nat, ports: set<nat>, to: TalkerRef): Ear {
    if IsListeningTalker(ear, id) then
      var e := SupTalkerPorts(ear, id, ports);
      if IsListeningTalker(e, id) then ReplaceTalker(e, id, to) else e
    else ear
  }

  /** The edit the band applies to every ear of the other talkers. */
  datatype EarStep = SupStep(id: nat) | ReplaceStep(id: nat, ports: set<nat>, to: TalkerRef)

  function Apply(step: EarStep, ear: Ear): Ear {
    match step
    case SupStep(id) => EarAfterSup(ear, id)
    case ReplaceStep(id, ports, to) => EarAfterReplace(ear, id, ports, to)
  }

  function MappedEars(ears: seq<Ear>, step: EarStep): (r: seq<Ear>)
    ensures |r| == |ears|
  {
    seq(|ears|, i requires 0 <= i < |ears| => Apply(step, ears[i]))
  }

  function MapEarsOf(m: map<nat, Member>, step: EarStep): (r: map<nat, Member>)
    ensures r.Keys == m.Keys
  {
    map k | k in m :: m[k].(ears := MappedEars(m[k].ears, step))
  }

  /** The talkers after `sup_talker`. */
  function SuppressedTalkers(m: map<nat, Member>, id: nat): map<nat, Member> {
    MapEarsOf(m - {id}, SupStep(id))
  }

  /** The talkers after `replace_talker` with the given invalidated ports. */
  function ReplacedTalkers(m: map<nat, Member>, id: nat, newId: nat, nw: Member, ports: set<nat>): map<nat, Member> {
    MapEarsOf(m - {id}, ReplaceStep(id, ports, Cab(newId, nw.instance)))[newId := nw]
  }

  /** The inner loop over the ears of one talker. */
  method BuildMappedEars(ears: seq<Ear>, step: EarStep) returns (r: seq<Ear>)
    ensures r == MappedEars(ears, step)
  {
    r := [];
    for i := 0 to |ears|
      invariant |r| == i
      invariant forall j :: 0 <= j < i ==> r[j] == Apply(step, ears[j])
    {
      var e := BuildStepEar(ears[i], step);
      r := r + [e];
    }
    MappedEarsOf(ears, step, r);
  }

  /** The body of the inner loop: the edit of one ear. */
  method BuildStepEar(ear: Ear, step: EarStep) returns (e: Ear)
    ensures e == Apply(step, ear)
  {
    match step {
      case SupStep(id) =>
        e := if IsListeningTalker(ear, id) then SupTalker(ear, id) else ear;
      case ReplaceStep(id, ports, to) =>
        e := ear;
        if IsListeningTalker(e, id) {
          e := BuildSupTalkerPorts(e, id, ports);
          if IsListeningTalker(e, id) {
            e := BuildRewrittenEar(e, Redirect(id, to));
          }
        }
    }
  }

  lemma {:induction false} MappedEarsOf(ears: seq<Ear>, step: EarStep, r: seq<Ear>)
    requires |r| == |ears| && forall j :: 0 <= j < |ears| ==> r[j] == Apply(step, ears[j])
    ensures r == MappedEars(ears, step)
  {
  }

  class Band {
    var talkers: map<nat, Member>
    var mixers: map<nat, Mixer>

    /** `Band::new`: a missing map is an empty one. */
    constructor (talkers: Option<map<nat, Member>>, mixers: Option<map<nat, Mixer>>)
      ensures this.talkers == (if talkers.Some? then talkers.value else map[])
      ensures this.mixers == (if mixers.Some? then mixers.value else map[])
    {
      this.talkers := if talkers.Some? then talkers.value else map[];
      this.mixers := if mixers.Some? then mixers.value else map[];
    }

    /** `fetch_talker`. */
    function FetchTalker(id: nat): (r: Result<Member>) reads this
      ensures r.Ok? <==> id in talkers
      ensures r.Ok? ==> r.value == talkers[id]
      ensures r.Err? ==> r.msg == TalkerNotFound(id)
    {
      if id in talkers then Ok(talkers[id]) else Err(TalkerNotFound(id))
    }

    /** `add_mixer`: the mixer's talker and the mixer, both under its id. */
    method AddMixer(id: nat, talker: Member, mixer: Mixer)
      modifies this
      ensures talkers == old(talkers)[id := talker] && mixers == old(mixers)[id := mixer]
      ensures talkers[id] == talker && mixers[id] == mixer
    {
      talkers := talkers[id := talker];
      mixers := mixers[id := mixer];
    }

    /** `nb_channels`: the largest channel count of an output of a mixer,
        or 0 without one. */
    method NbChannels() returns (n: nat)
      ensures forall k, i :: k in mixers && 0 <= i < |mixers[k].outputs| ==> mixers[k].outputs[i] <= n
      ensures n == 0 || exists k, i :: k in mixers && 0 <= i < |mixers[k].outputs| && mixers[k].outputs[i] == n
    {
      n := 0;
      var todo := mixers.Keys;
      while todo != {}
        invariant todo <= mixers.Keys
        invariant forall k, i :: k in mixers && k !in todo && 0 <= i < |mixers[k].outputs| ==> mixers[k].outputs[i] <= n
        invariant n == 0 || exists k, i :: k in mixers && 0 <= i < |mixers[k].outputs| && mixers[k].outputs[i] == n
        decreases |todo|
      {
        var k :| k in todo;
        var outs := mixers[k].outputs;
        for i := 0 to |outs|
          invariant forall k', i' :: k' in mixers && k' !in todo && 0 <= i' < |mixers[k'].outputs| ==> mixers[k'].outputs[i'] <= n
          invariant forall i' :: 0 <= i' < i ==> outs[i'] <= n
          invariant n == 0 || exists k', i' :: k' in mixers && 0 <= i' < |mixers[k'].outputs| && mixers[k'].outputs[i'] == n
        {
          if outs[i] > n {
            n := outs[i];
          }
        }
        todo := todo - {k};
      }
    }

    /** The loop over the talkers of the band, applying a step to each of
        their ears. The order of the talkers does not matter, since each
        talker's ears are edited on their own. */
    method RewriteEars(step: EarStep)
      modifies this
      ensures talkers == MapEarsOf(old(talkers), step) && mixers == old(mixers)
    {
      ghost var base := talkers;
      var todo := talkers.Keys;
      while todo != {}
        invariant todo <= base.Keys && talkers.Keys == base.Keys && mixers == old(mixers)
        invariant forall k :: k in base ==>
          talkers[k] == (if k in todo then base[k] else base[k].(ears := MappedEars(base[k].ears, step)))
        decreases |todo|
      {
        var k :| k in todo;
        var m := talkers[k];
        var ears := BuildMappedEars(m.ears, step);
        talkers := talkers[k := m.(ears := ears)];
        todo := todo - {k};
      }
      assert talkers == MapEarsOf(base, step);
    }

    /** `sup_talker`: the talker leaves the band and its talks leave the
        ears of the others. The ear edits it calls cannot fail. */
    method SupTalker(id: nat) returns (r: Result<()>)
      modifies this
      ensures r == Ok(()) && mixers == old(mixers)
      ensures talkers == SuppressedTalkers(old(talkers), id)
    {
      talkers := talkers - {id};
      RewriteEars(SupStep(id));
      r := Ok(());
    }

    /** `replace_talker`, as written: the new talker takes the old one's
        place, under its own id, and the talks to the old talker move to it
        unless their port is invalidated. */
    method ReplaceTalker(id: nat, newId: nat, nw: Member) returns (r: Result<()>)
      modifies this
      ensures id !in old(talkers) ==> r == Err(TalkerNotFound(id)) && talkers == old(talkers)
      ensures id in old(talkers) ==>
        (r == Ok(()) && talkers == ReplacedTalkers(old(talkers), id, newId, nw, InvalidatedPorts(old(talkers)[id].ports, nw.ports)))
      ensures mixers == old(mixers)
    {
      var found := FetchTalker(id);
      if found.Err? {
        return Err(found.msg);
      }
      var ports := BuildInvalidatedPorts(found.value.ports, nw.ports);
      talkers := talkers - {id};
      RewriteEars(ReplaceStep(id, ports, Cab(newId, nw.instance)));
      talkers := talkers[newId := nw];
      r := Ok(());
    }

    /** `replace_talker` with the ports only the old talker has
        invalidated as well. */
    method ReplaceTalkerCorrected(id: nat, newId: nat, nw: Member) returns (r: Result<()>)
      modifies this
      ensures id !in old(talkers) ==> r == Err(TalkerNotFound(id)) && talkers == old(talkers)
      ensures id in old(talkers) ==>
        (r == Ok(()) &&
         talkers == ReplacedTalkers(old(talkers), id, newId, nw, IntendedInvalidatedPorts(old(talkers)[id].ports, nw.ports)))
      ensures mixers == old(mixers)
    {
      var found := FetchTalker(id);
      if found.Err? {
        return Err(found.msg);
      }
      var ports := BuildIntendedInvalidatedPorts(found.value.ports, nw.ports);
      talkers := talkers - {id};
      RewriteEars(ReplaceStep(id, ports, Cab(newId, nw.instance)));
      talkers := talkers[newId := nw];
      r := Ok(());
    }
  }

  // Properties of the ears after a removal or a replacement.

  /** No talk of the ear is of `to`. */
  predicate NoTalkTo(ear: Ear, to: TalkerRef) {
    forall i, j, k :: 0 <= i < |ear.sets| && 0 <= j < |ear.sets[i].hums| && 0 <= k < |ear.sets[i].hums[j].talks| ==>
      ear.sets[i].hums[j].talks[k].talker != to
  }

  /** Every talk of the talker is on one of its ports, and not on `avoid`. */
  predicate OnPorts(ear: Ear, id: nat, ports: seq<PortType>, avoid: set<nat>) {
    forall i, j, k ::
      (0 <= i < |ear.sets| && 0 <= j < |ear.sets[i].hums| && 0 <= k < |ear.sets[i].hums[j].talks|
       && IsOf(ear.sets[i].hums[j].talks[k].talker, id)) ==>
      ear.sets[i].hums[j].talks[k].port < |ports| && ear.sets[i].hums[j].talks[k].port !in avoid
  }

  /** Every talk to `to` is on a port it has, of the type of the same port
      of the replaced talker. */
  predicate OnMatchingPorts(ear: Ear, to: TalkerRef, oldPorts: seq<PortType>, newPorts: seq<PortType>) {
    forall i, j, k ::
      (0 <= i < |ear.sets| && 0 <= j < |ear.sets[i].hums| && 0 <= k < |ear.sets[i].hums[j].talks|
       && ear.sets[i].hums[j].talks[k].talker == to) ==>
      var p := ear.sets[i].hums[j].talks[k].port; p < |newPorts| && p < |oldPorts| && newPorts[p] == oldPorts[p]
  }

  /** A talk of a rewritten ear is a kept talk of the same hum, renamed, or
      the constant talk of an emptied hum. */
  lemma {:induction false} RewrittenTalk(ear: Ear, rw: Rewrite, i: nat, j: nat, k: nat)
    requires var r := RewrittenEar(ear, rw); i < |r.sets| && j < |r.sets[i].hums| && k < |r.sets[i].hums[j].talks|
    ensures |ear.sets[i].hums| == |RewrittenEar(ear, rw).sets[i].hums|
    ensures var h := ear.sets[i].hums[j]; var t := RewrittenEar(ear, rw).sets[i].hums[j].talks[k];
      (exists k' :: 0 <= k' < |h.talks| && Keeps(rw, h.talks[k']) && t == Renamed(rw, h.talks[k']))
      || t == DefTalk(h.portType, 0.0)
  {
    var r := RewrittenEar(ear, rw);
    assert r.sets[i] == RewrittenSet(ear.sets[i], rw);
    assert r.sets[i].hums[j] == RewrittenHum(ear.sets[i].hums[j], rw);
    RewrittenHumTalks(ear.sets[i].hums[j], rw);
    assert r.sets[i].hums[j].talks[k] in r.sets[i].hums[j].talks;
  }

  /** Dropping talks brings in no talk of a band talker. */
  lemma {:induction false} SupPortsKeepsFresh(ear: Ear, id: nat, ports: set<nat>, to: TalkerRef)
    requires to.Cab? && NoTalkTo(ear, to)
    ensures NoTalkTo(SupTalkerPorts(ear, id, ports), to)
  {
    var e := SupTalkerPorts(ear, id, ports);
    if ListensOnPorts(ear, id, ports) {
      forall i, j, k | 0 <= i < |e.sets| && 0 <= j < |e.sets[i].hums| && 0 <= k < |e.sets[i].hums[j].talks|
        ensures e.sets[i].hums[j].talks[k].talker != to
      {
        RewrittenTalk(ear, DropPorts(id, ports), i, j, k);
      }
    }
  }

  /** After `sup_talker_ports`, the talks of the talker avoid the ports. */
  lemma {:induction false} SupPortsAvoids(ear: Ear, id: nat, ports: set<nat>, oldPorts: seq<PortType>)
    requires OnPorts(ear, id, oldPorts, {})
    ensures OnPorts(SupTalkerPorts(ear, id, ports), id, oldPorts, ports)
  {
    var e := SupTalkerPorts(ear, id, ports);
    if ListensOnPorts(ear, id, ports) {
      forall i, j, k | 0 <= i < |e.sets| && 0 <= j < |e.sets[i].hums| && 0 <= k < |e.sets[i].hums[j].talks|
        && IsOf(e.sets[i].hums[j].talks[k].talker, id)
        ensures e.sets[i].hums[j].talks[k].port < |oldPorts| && e.sets[i].hums[j].talks[k].port !in ports
      {
        RewrittenTalk(ear, DropPorts(id, ports), i, j, k);
      }
    } else {
      forall i, j, k | 0 <= i < |ear.sets| && 0 <= j < |ear.sets[i].hums| && 0 <= k < |ear.sets[i].hums[j].talks|
        && IsOf(ear.sets[i].hums[j].talks[k].talker, id)
        ensures ear.sets[i].hums[j].talks[k].port !in ports
      {
        if ear.sets[i].hums[j].talks[k].port in ports {
          assert FoundInTalks(ear.sets[i].hums[j].talks, id, ports, |ear.sets[i].hums[j].talks|);
          assert FoundInHums(ear.sets[i].hums, id, ports, |ear.sets[i].hums|);
          assert false;
        }
      }
    }
  }

  /** Redirecting the talks of a talker whose talks avoid the intended
      invalidated ports puts every talk to the new talker on a port of the
      right type. */
  lemma {:induction false} RedirectOnMatchingPorts(e: Ear, id: nat, to: TalkerRef, oldPorts: seq<PortType>, newPorts: seq<PortType>)
    requires NoTalkTo(e, to) && OnPorts(e, id, oldPorts, IntendedInvalidatedPorts(oldPorts, newPorts))
    ensures OnMatchingPorts(ReplaceTalker(e, id, to), to, oldPorts, newPorts)
  {
    var r := ReplaceTalker(e, id, to);
    forall i, j, k | 0 <= i < |r.sets| && 0 <= j < |r.sets[i].hums| && 0 <= k < |r.sets[i].hums[j].talks|
      && r.sets[i].hums[j].talks[k].talker == to
      ensures var p := r.sets[i].hums[j].talks[k].port; p < |newPorts| && p < |oldPorts| && newPorts[p] == oldPorts[p]
    {
      ReplaceTalkerRedirects(e, id, to, i, j);
    }
  }

  /** The corrected rule: in an ear whose talks to the replaced talker are
      on its ports and which has no talk to the new talker yet, every talk
      to the new talker ends on a port the new talker has, of the same type
      as before. */
  lemma {:induction false} CorrectedReplaceKeepsPortTypes(ear: Ear, id: nat, to: TalkerRef, oldPorts: seq<PortType>, newPorts: seq<PortType>)
    requires to.Cab? && NoTalkTo(ear, to) && OnPorts(ear, id, oldPorts, {})
    ensures OnMatchingPorts(EarAfterReplace(ear, id, IntendedInvalidatedPorts(oldPorts, newPorts), to), to, oldPorts, newPorts)
  {
    var ports := IntendedInvalidatedPorts(oldPorts, newPorts);
    if IsListeningTalker(ear, id) {
      var e := SupTalkerPorts(ear, id, ports);
      SupPortsKeepsFresh(ear, id, ports, to);
      SupPortsAvoids(ear, id, ports, oldPorts);
      if IsListeningTalker(e, id) {
        RedirectOnMatchingPorts(e, id, to, oldPorts, newPorts);
      }
    }
  }

  /** An ear with one set holding one hum with one talk. */
  function LoneTalkEar(talk: Talk): (r: Ear)
    ensures |r.sets| == 1 && |r.sets[0].hums| == 1 && r.sets[0].hums[0].talks == [talk]
  {
    Ear(DEF_EAR_TAG, false, None, [Set([NewHum(None, Audio, 0.0, 1.0, 0.0, [talk])])])
  }

  /** A talker whose ports keep their types on the ports both have
      invalidates no port, as written, however many ports it loses. */
  lemma {:induction false} ShorterSameTypesInvalidateNothing()
    ensures InvalidatedPorts([Audio, Audio], [Audio]) == {}
  {
    var ports := InvalidatedPorts([Audio, Audio], [Audio]);
    forall p: nat ensures p !in ports {
      assert [Audio, Audio][0] == [Audio][0];
    }
  }

  /** With no port invalidated, the lone talk of the replaced talker is
      redirected to the new talker on the same port. */
  lemma {:induction false} LoneTalkRedirected(talk: Talk, id: nat, to: TalkerRef)
    requires IsOf(talk.talker, id)
    ensures EarAfterReplace(LoneTalkEar(talk), id, {}, to).sets[0].hums[0].talks == [Talk(to, talk.port)]
  {
    var ear := LoneTalkEar(talk);
    assert ear.sets[0].hums[0].talks[0] == talk;
    assert IsListeningTalker(ear, id);
    assert !ListensOnPorts(ear, id, {});
    assert SupTalkerPorts(ear, id, {}) == ear;
    ReplaceTalkerRedirects(ear, id, to, 0, 0);
  }

  /** The rule as written lets a talk through to a port the new talker
      lacks: a listener on port 1 of a two-port talker replaced by a
      one-port talker of the same first type keeps its talk, now on the
      missing port 1. */
  lemma {:induction false} InvalidatedPortsKeepsMissingPort()
    ensures var ear := LoneTalkEar(Talk(Cab(7, 0), 1));
      var to := Cab(7, 1);
      var r := EarAfterReplace(ear, 7, InvalidatedPorts([Audio, Audio], [Audio]), to);
      NoTalkTo(ear, to) && OnPorts(ear, 7, [Audio, Audio], {})
      && |r.sets| == 1 && |r.sets[0].hums| == 1 && r.sets[0].hums[0].talks == [Talk(to, 1)]
      && !OnMatchingPorts(r, to, [Audio, Audio], [Audio])
  {
    var talk := Talk(Cab(7, 0), 1);
    var to := Cab(7, 1);
    ShorterSameTypesInvalidateNothing();
    LoneTalkRedirected(talk, 7, to);
    LoneTalkFacts(talk, 7, [Audio, Audio], to);
    OffPortNotMatching(EarAfterReplace(LoneTalkEar(talk), 7, {}, to), to, 1, [Audio, Audio], [Audio]);
  }

  /** The lone talk of a talker on one of its ports: the ear's talks are on
      that talker's ports and none is to another talker `to`. */
  lemma {:induction false} LoneTalkFacts(talk: Talk, id: nat, ports: seq<PortType>, to: TalkerRef)
    requires IsOf(talk.talker, id) && talk.port < |ports| && talk.talker != to
    ensures NoTalkTo(LoneTalkEar(talk), to) && OnPorts(LoneTalkEar(talk), id, ports, {})
  {
    var ear := LoneTalkEar(talk);
    assert ear.sets[0].hums[0].talks[0] == talk;
  }

  /** An ear whose first talk is to `to` on a port the new talker lacks
      does not have its talks on matching ports. */
  lemma {:induction false} OffPortNotMatching(e: Ear, to: TalkerRef, port: nat, oldPorts: seq<PortType>, newPorts: seq<PortType>)
    requires |e.sets| >= 1 && |e.sets[0].hums| >= 1 && e.sets[0].hums[0].talks == [Talk(to, port)]
    requires port >= |newPorts|
    ensures !OnMatchingPorts(e, to, oldPorts, newPorts)
  {
    assert e.sets[0].hums[0].talks[0].talker == to;
  }

  // Properties of the band after a removal or a replacement.

  /** After `sup_talker` the talker is gone and no ear listens to it. */
  lemma {:induction false} SupTalkerLeavesNoListener(m: map<nat, Member>, id: nat)
    ensures var r := SuppressedTalkers(m, id);
      r.Keys == m.Keys - {id}
      && (forall k, i :: k in r && 0 <= i < |r[k].ears| ==> !IsListeningTalker(r[k].ears[i], id))
      && (forall k :: k in r ==> r[k].instance == m[k].instance && r[k].ports == m[k].ports && |r[k].ears| == |m[k].ears|)
  {
    var r := SuppressedTalkers(m, id);
    forall k, i | k in r && 0 <= i < |r[k].ears| ensures !IsListeningTalker(r[k].ears[i], id) {
      var ear := m[k].ears[i];
      assert r[k].ears[i] == EarAfterSup(ear, id);
    }
  }

  /** `sup_talker` keeps every talk of another talker. */
  lemma {:induction false} SupTalkerKeepsOtherTalks(m: map<nat, Member>, id: nat, key: nat, e: nat, i: nat, j: nat, k: nat)
    requires key in m && key != id && e < |m[key].ears|
    requires var ear := m[key].ears[e];
      i < |ear.sets| && j < |ear.sets[i].hums| && k < |ear.sets[i].hums[j].talks|
      && !IsOf(ear.sets[i].hums[j].talks[k].talker, id)
    ensures var ear := m[key].ears[e];
      ear.sets[i].hums[j].talks[k] in SuppressedTalkers(m, id)[key].ears[e].sets[i].hums[j].talks
  {
    var ear := m[key].ears[e];
    assert SuppressedTalkers(m, id)[key].ears[e] == EarAfterSup(ear, id);
    assert IsListeningTalker(ear, id) ==> true;
    SupTalkerKeepsOthers(ear, id, i, j, k);
  }

  /** After `replace_talker` the new talker is in the band under its own
      id, the old id is gone unless the new talker took it, and every
      remaining talk of the old id is a talk to the new talker. */
  lemma {:induction false} ReplaceTalkerRedirectsAll(m: map<nat, Member>, id: nat, newId: nat, nw: Member, ports: set<nat>)
    ensures var r := ReplacedTalkers(m, id, newId, nw, ports);
      r.Keys == (m.Keys - {id}) + {newId} && r[newId] == nw
      && (forall k, e, i, j, t ::
           (k in r && k != newId && 0 <= e < |r[k].ears| && 0 <= i < |r[k].ears[e].sets|
            && 0 <= j < |r[k].ears[e].sets[i].hums| && 0 <= t < |r[k].ears[e].sets[i].hums[j].talks|
            && IsOf(r[k].ears[e].sets[i].hums[j].talks[t].talker, id)) ==>
           r[k].ears[e].sets[i].hums[j].talks[t].talker == Cab(newId, nw.instance))
  {
    var r := ReplacedTalkers(m, id, newId, nw, ports);
    var to := Cab(newId, nw.instance);
    forall k, e, i, j, t | k in r && k != newId && 0 <= e < |r[k].ears| && 0 <= i < |r[k].ears[e].sets|
      && 0 <= j < |r[k].ears[e].sets[i].hums| && 0 <= t < |r[k].ears[e].sets[i].hums[j].talks|
      && IsOf(r[k].ears[e].sets[i].hums[j].talks[t].talker, id)
      ensures r[k].ears[e].sets[i].hums[j].talks[t].talker == to
    {
      var ear := m[k].ears[e];
      assert r[k].ears[e] == EarAfterReplace(ear, id, ports, to);
      EarReplaceRedirects(ear, id, ports, to, i, j, t);
    }
  }

  lemma {:induction false} EarReplaceRedirects(ear: Ear, id: nat, ports: set<nat>, to: TalkerRef, i: nat, j: nat, t: nat)
    requires var r := EarAfterReplace(ear, id, ports, to);
      i < |r.sets| && j < |r.sets[i].hums| && t < |r.sets[i].hums[j].talks| && IsOf(r.sets[i].hums[j].talks[t].talker, id)
    ensures EarAfterReplace(ear, id, ports, to).sets[i].hums[j].talks[t].talker == to
  {
    var r := EarAfterReplace(ear, id, ports, to);
    assert IsListeningTalker(r, id) by {
      assert IsOf(r.sets[i].hums[j].talks[t].talker, id);
    }
    var e := SupTalkerPorts(ear, id, ports);
    if IsListeningTalker(ear, id) && IsListeningTalker(e, id) {
      ReplaceTalkerRedirects(e, id, to, i, j);
    }
  }

  /** The corrected `replace_talker` on a band whose ears listen to the
      replaced talker only on its ports, with a new talker nobody listens
      to yet: every talk to the new talker is on a port it has, of the same
      type as before. */
  lemma {:induction false} CorrectedReplaceTalkerKeepsPortTypes(m: map<nat, Member>, id: nat, newId: nat, nw: Member)
    requires id in m
    requires forall k, e :: k in m && k != id && 0 <= e < |m[k].ears| ==>
      OnPorts(m[k].ears[e], id, m[id].ports, {}) && NoTalkTo(m[k].ears[e], Cab(newId, nw.instance))
    ensures var r := ReplacedTalkers(m, id, newId, nw, IntendedInvalidatedPorts(m[id].ports, nw.ports));
      forall k, e :: k in r && k != newId && 0 <= e < |r[k].ears| ==>
        OnMatchingPorts(r[k].ears[e], Cab(newId, nw.instance), m[id].ports, nw.ports)
  {
    var ports := IntendedInvalidatedPorts(m[id].ports, nw.ports);
    var r := ReplacedTalkers(m, id, newId, nw, ports);
    var to := Cab(newId, nw.instance);
    forall k, e | k in r && k != newId && 0 <= e < |r[k].ears|
      ensures OnMatchingPorts(r[k].ears[e], to, m[id].ports, nw.ports)
    {
      assert r[k].ears[e] == EarAfterReplace(m[k].ears[e], id, ports, to);
      CorrectedReplaceKeepsPortTypes(m[k].ears[e], id, to, m[id].ports, nw.ports);
    }
  }
}
