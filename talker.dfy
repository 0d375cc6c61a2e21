/** A talker (talker/src/talker.rs): a base holding the identifier, the
    ears and the voices, and a cab pairing the base with the core that
    does the talking. The core's own behaviour (what `talk` computes, how a
    data change rebuilds the base) belongs to each talker kind and is a
    parameter here. */
module Talkers {
  import opened Wrappers
  import opened Numeric
  import opened Voices
  import opened TalkerEar
  import opened Identifiers

  /** Whether a voice is associated with set `setIdx` of ear `earIdx`. */
  predicate AssociatedWith(v: Voice, earIdx: nat, setIdx: nat) reads v {
    v.assocEar == earIdx && v.assocSet == setIdx
  }

  /** The voices not associated with the set, in their order. */
  function KeptVoices(vs: seq<Voice>, earIdx: nat, setIdx: nat): (r: seq<Voice>)
    reads set v | v in vs
    ensures |r| <= |vs|
  {
    if |vs| == 0 then []
    else
      var rest := KeptVoices(vs[1..], earIdx, setIdx);
      if AssociatedWith(vs[0], earIdx, setIdx) then rest else [vs[0]] + rest
  }

  /** The kept voices are exactly the voices not associated with the set. */
  lemma {:induction false} KeptVoicesMembers(vs: seq<Voice>, earIdx: nat, setIdx: nat)
    ensures forall v :: v in KeptVoices(vs, earIdx, setIdx) ==> v in vs && !AssociatedWith(v, earIdx, setIdx)
    ensures forall v :: v in vs && !AssociatedWith(v, earIdx, setIdx) ==> v in KeptVoices(vs, earIdx, setIdx)
  {
    if |vs| > 0 {
      KeptVoicesMembers(vs[1..], earIdx, setIdx);
      assert forall v :: v in vs[1..] ==> v in vs;
      assert forall v :: v in vs ==> v == vs[0] || v in vs[1..];
    }
  }

  predicate Distinct(vs: seq<Voice>) {
    forall i, j :: 0 <= i < j < |vs| ==> vs[i] != vs[j]
  }

  lemma {:induction false} KeptDistinct(vs: seq<Voice>, earIdx: nat, setIdx: nat)
    requires Distinct(vs)
    ensures Distinct(KeptVoices(vs, earIdx, setIdx))
  {
    if |vs| > 0 {
      KeptDistinct(vs[1..], earIdx, setIdx);
      KeptVoicesMembers(vs[1..], earIdx, setIdx);
      assert vs[0] !in vs[1..];
    }
  }

  /** One step of the removal walk, from position `i`. */
  lemma {:induction false} KeptStep(vs: seq<Voice>, i: nat, earIdx: nat, setIdx: nat)
    requires i < |vs|
    ensures KeptVoices(vs[i..], earIdx, setIdx) ==
      (if AssociatedWith(vs[i], earIdx, setIdx) then [] else [vs[i]]) + KeptVoices(vs[i + 1..], earIdx, setIdx)
  {
    assert vs[i..][1..] == vs[i + 1..];
    assert [] + KeptVoices(vs[i + 1..], earIdx, setIdx) == KeptVoices(vs[i + 1..], earIdx, setIdx);
  }

  /** Removing the element that follows `a` leaves `a` and the rest. */
  lemma {:induction false} SplitAround<T>(a: seq<T>, x: T, rest: seq<T>, vs: seq<T>)
    requires vs == a + [x] + rest
    ensures |a| < |vs| && vs[|a|] == x
    ensures vs[..|a|] + vs[|a| + 1..] == a + rest
    ensures vs == a + ([x] + rest)
  {
    assert vs[..|a|] == a;
    assert vs[|a| + 1..] == rest;
  }

  /** The voices once the walk has passed position `i`, from those before. */
  lemma {:induction false} KeptWalk(s0: seq<Voice>, i: nat, vs: seq<Voice>, earIdx: nat, setIdx: nat)
    requires i < |s0| && vs == s0[..i + 1] + KeptVoices(s0[i + 1..], earIdx, setIdx)
    ensures i < |vs| && vs[i] == s0[i]
    ensures (if AssociatedWith(vs[i], earIdx, setIdx) then vs[..i] + vs[i + 1..] else vs)
      == s0[..i] + KeptVoices(s0[i..], earIdx, setIdx)
  {
    ghost var rest := KeptVoices(s0[i + 1..], earIdx, setIdx);
    KeptStep(s0, i, earIdx, setIdx);
    assert s0[..i + 1] == s0[..i] + [s0[i]];
    SplitAround(s0[..i], s0[i], rest, vs);
  }

  /** The set index of a voice once set `setIdx` of ear `earIdx` is gone. */
  function Renumbered(aEar: nat, aSet: nat, earIdx: nat, setIdx: nat): nat {
    if aEar == earIdx && aSet > setIdx then aSet - 1 else aSet
  }

  class TalkerBase {
    var identifier: Identifier
    var ears: seq<Ear>
    var voices: seq<Voice>
    var hidden: bool
    var effective: bool

    ghost predicate Valid() reads this {
      Distinct(voices)
    }

    constructor (identifier: Identifier, ears: seq<Ear>, voices: seq<Voice>, hidden: bool, effective: bool)
      requires Distinct(voices)
      ensures Valid()
      ensures this.identifier == identifier && this.ears == ears && this.voices == voices
      ensures this.hidden == hidden && this.effective == effective
    {
      this.identifier := identifier;
      this.ears := ears;
      this.voices := voices;
      this.hidden := hidden;
      this.effective := effective;
    }

    /** `buffer_len`: the chunk size for an effective talker, else 1. */
    function BufferLen(chunkSize: nat): (r: nat) reads this
      ensures effective ==> r == chunkSize
      ensures !effective ==> r == 1
    {
      if effective then chunkSize else 1
    }

    /** The first loop of `sup_ear_set_with_associated_voice`: walking from
        the last voice down, the voices associated with the set are removed. */
    method SupAssociatedVoices(earIdx: nat, setIdx: nat)
      requires Valid()
      modifies this
      ensures Valid()
      ensures voices == old(KeptVoices(voices, earIdx, setIdx))
      ensures identifier == old(identifier) && ears == old(ears)
      ensures hidden == old(hidden) && effective == old(effective)
    {
      ghost var s0 := voices;
      var vi := |voices|;
      assert s0[vi..] == [];
      while vi > 0
        invariant 0 <= vi <= |s0|
        invariant voices == s0[..vi] + KeptVoices(s0[vi..], earIdx, setIdx)
        invariant ears == old(ears) && identifier == old(identifier)
        invariant hidden == old(hidden) && effective == old(effective)
      {
        vi := vi - 1;
        KeptWalk(s0, vi, voices, earIdx, setIdx);
        if voices[vi].assocEar == earIdx && voices[vi].assocSet == setIdx {
          voices := voices[..vi] + voices[vi + 1..];
        }
      }
      assert voices == KeptVoices(s0, earIdx, setIdx);
      KeptDistinct(s0, earIdx, setIdx);
    }

    /** The second loop: the voices associated with a later set of the same
        ear move down by one set. */
    method RenumberAssociatedSets(earIdx: nat, setIdx: nat)
      requires Valid()
      modifies set v | v in voices
      ensures forall v :: v in voices ==>
        (v.assocEar == old(v.assocEar)
         && v.assocSet == Renumbered(old(v.assocEar), old(v.assocSet), earIdx, setIdx)
         && v.tick == old(v.tick) && v.len == old(v.len))
    {
      for i := 0 to |voices|
        invariant forall j :: 0 <= j < i ==>
          (voices[j].assocEar == old(voices[j].assocEar)
           && voices[j].assocSet == Renumbered(old(voices[j].assocEar), old(voices[j].assocSet), earIdx, setIdx))
        invariant forall j :: i <= j < |voices| ==>
          (voices[j].assocEar == old(voices[j].assocEar) && voices[j].assocSet == old(voices[j].assocSet))
        invariant forall v :: v in voices ==> v.tick == old(v.tick) && v.len == old(v.len)
      {
        var v := voices[i];
        if v.assocEar == earIdx && v.assocSet > setIdx {
          v.SetAssociatedEarSet(earIdx, v.assocSet - 1);
        }
      }
    }

    /** `sup_ear_set_with_associated_voice`: removes the voices associated
        with the set, renumbers the later sets of that ear in the other
        voices, then removes the set from the ear. An ear index past the
        ears panics after the voices have changed, as does an ear without
        sets (see `SupSet`). */
    method SupEarSetWithAssociatedVoice(earIdx: nat, setIdx: nat) returns (r: Run<()>)
      requires Valid()
      modifies this, set v | v in voices
      ensures Valid()
      ensures voices == old(KeptVoices(voices, earIdx, setIdx))
      ensures forall v :: v in voices ==> v in old(voices)
      ensures forall v :: v in voices ==>
        (v.assocEar == old(v.assocEar)
         && v.assocSet == Renumbered(old(v.assocEar), old(v.assocSet), earIdx, setIdx)
         && v.tick == old(v.tick) && v.len == old(v.len))
      ensures identifier == old(identifier) && hidden == old(hidden) && effective == old(effective)
      ensures earIdx >= |old(ears)| ==> r.Panic? && ears == old(ears)
      ensures earIdx < |old(ears)| ==> var s := SupSet(old(ears)[earIdx], setIdx);
        (s.Panic? ==> r.Panic? && ears == old(ears))
        && (s.Done? ==> r == Done(()) && ears == old(ears)[earIdx := s.value])
    {
      KeptVoicesMembers(voices, earIdx, setIdx);
      SupAssociatedVoices(earIdx, setIdx);
      RenumberAssociatedSets(earIdx, setIdx);
      if earIdx >= |ears| {
        return Panic("index out of bounds");
      }
      var s := BuildSupSet(ears[earIdx], setIdx);
      if s.Panic? {
        return Panic(s.reason);
      }
      ears := ears[earIdx := s.value];
      r := Done(());
    }
  }

  /** The core of a talker: its behaviour is that of its kind, and the
      model keeps only whether it was replaced by the `NilTalker`. */
  datatype Core = NilCore | KindCore(kind: string)

  class TalkerCab {
    var base: TalkerBase
    var core: Core

    constructor (base: TalkerBase, core: Core)
      ensures this.base == base && this.core == core
    {
      this.base := base;
      this.core := core;
    }

    function Id(): nat reads this, base, base.identifier {
      base.identifier.id
    }

    /** `update`: a core that rebuilt its base hands the base over; the new
        cab takes the old cab's core and id, and the old cab is left with a
        `NilTalker` core. Without a new base there is no new cab. */
    method Update(obase: Option<TalkerBase>, count: IdCounter) returns (r: Run<Option<TalkerCab>>)
      requires base.identifier.Valid() && count.Valid()
      requires obase.Some? ==> obase.value.identifier.Valid()
      modifies this, count, if obase.Some? then {obase.value.identifier} else {}
      ensures obase.None? ==> r == Done(None) && core == old(core) && base == old(base)
      ensures obase.Some? && r.Done? ==>
        (r.value.Some? && fresh(r.value.value)
         && r.value.value.base == obase.value && r.value.value.core == old(core)
         && obase.value.identifier.id == old(base.identifier.id) && core == NilCore)
      ensures base == old(base)
    {
      if obase.None? {
        return Done(None);
      }
      var nb := obase.value;
      var myId := base.identifier.id;
      if nb.identifier.id != myId {
        var s := nb.identifier.SetId(myId, count);
        if s.Panic? {
          return Panic(s.reason);
        }
      }
      var c := core;
      core := NilCore;
      var cab := new TalkerCab(nb, c);
      r := Done(Some(cab));
    }

    /** `voice_tag`: the tag of an existing port, else an error. */
    function VoiceTag(port: nat): (r: Result<string>)
      reads this, base, base.identifier, set v | v in base.voices
      ensures port < |base.voices| ==> r == Ok(base.voices[port].tag)
      ensures port >= |base.voices| ==>
        r == Err("Unknow voice " + FormatNat(port) + " for talker " + base.identifier.name)
    {
      if port < |base.voices| then Ok(base.voices[port].tag)
      else Err("Unknow voice " + FormatNat(port) + " for talker " + base.identifier.name)
    }

    /** `voice_value`: a hidden talker (a constant talker) shows the value
        of an existing, non-Atom voice. The value in the voice's buffer is a
        parameter. */
    function VoiceValue(port: nat, valueAt: Voice -> real): (r: Option<real>)
      reads this, base, set v | v in base.voices
      ensures r.Some? <==> base.hidden && port < |base.voices| && base.voices[port].portType != Atom
      ensures r.Some? ==> r.value == valueAt(base.voices[port])
    {
      if base.hidden && port < |base.voices| && base.voices[port].CanHaveAValue() then
        Some(valueAt(base.voices[port]))
      else None
    }

    /** `depends_of`: some ear listens to the talker. */
    predicate DependsOf(id: nat) reads this, base {
      exists k :: 0 <= k < |base.ears| && IsListeningTalker(base.ears[k], id)
    }

    /** The loop of `depends_of`, which returns on the first ear that
        listens to the talker. */
    method SearchDependsOf(id: nat) returns (b: bool)
      ensures b <==> DependsOf(id)
    {
      var ears := base.ears;
      for k := 0 to |ears|
        invariant forall k' :: 0 <= k' < k ==> !IsListeningTalker(ears[k'], id)
      {
        var listens := SearchListeningTalker(ears[k], id);
        if listens {
          return true;
        }
      }
      return false;
    }

    /** `talk`: the core produces `spoken` samples (a parameter); when it
        produced any, the voice records the tick and that length, for the
        listeners to read. */
    method Talk(port: nat, tick: int, len: nat, spoken: nat) returns (r: Run<nat>)
      modifies if port < |base.voices| then {base.voices[port]} else {}
      ensures spoken == 0 ==> r == Done(0)
      ensures spoken > 0 && port >= |base.voices| ==> r.Panic?
      ensures spoken > 0 && port < |base.voices| ==>
        (r == Done(spoken) && base.voices[port].tick == tick && base.voices[port].len == spoken)
    {
      if spoken > 0 {
        if port >= |base.voices| {
          return Panic("index out of bounds");
        }
        base.voices[port].SetTickLen(tick, spoken);
      }
      r := Done(spoken);
    }
  }

  /** `Talk::listen` (talker/src/ear.rs): a voice that already holds the
      chunk of this tick is read from, without calling its talker; the
      length is the smaller of the asked and the produced one. Otherwise
      the talker talks. */
  method Listen(cab: TalkerCab, port: nat, tick: int, len: nat, spoken: nat) returns (r: Run<nat>)
    modifies if port < |cab.base.voices| then {cab.base.voices[port]} else {}
    ensures port >= |cab.base.voices| ==> r.Panic?
    ensures port < |cab.base.voices| && old(cab.base.voices[port].tick) == tick ==>
      r == Done(Min(len, cab.base.voices[port].len)) && unchanged(cab.base.voices[port])
    ensures port < |cab.base.voices| && old(cab.base.voices[port].tick) != tick ==>
      r == Done(spoken) && (spoken > 0 ==> cab.base.voices[port].tick == tick && cab.base.voices[port].len == spoken)
  {
    if port >= |cab.base.voices| {
      return Panic("index out of bounds");
    }
    var v := cab.base.voices[port];
    if tick == v.tick {
      return Done(Min(len, v.len));
    }
    r := cab.Talk(port, tick, len, spoken);
  }
}
