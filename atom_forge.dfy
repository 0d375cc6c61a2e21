// The atom forge as the Rust code runs it: an object over the caller's
// buffer whose methods copy bytes in place, proved against the state
// transitions of module Forges.

module AtomForge {
  import opened Wrappers
  import opened Numeric
  import opened Lv2Atom
  import opened Forges

  /** The forge over the caller's buffer, with the stack of open
      `ForgeSequence`s each holding the header it grows. Each `ForgeSequence`
      borrows its parent mutably, so only the innermost level can be
      written through: that is the `requires` on the open stack below. */
  class Forge {
    const buffer: array<Byte>
    var position: nat
    /** Header offsets of the open sequences, outermost first. */
    var open: seq<nat>

    ghost function State(): ForgeState
      reads this, buffer
    {
      ForgeState(buffer[..], position, open)
    }

    /** `Forge::new`. */
    constructor (buffer: array<Byte>)
      ensures this.buffer == buffer && State() == NewForge(buffer[..])
    {
      this.buffer := buffer;
      position := 0;
      open := [];
    }

    /** `copy_from_slice` into `buffer[at..at + |data|]`. */
    method CopyInto(at: nat, data: seq<Byte>)
      requires at + |data| <= buffer.Length
      modifies buffer
      ensures buffer[..] == CopiedAt(old(buffer[..]), at, data)
    {
      for i := 0 to |data|
        invariant forall k :: 0 <= k < buffer.Length ==>
          buffer[k] == if at <= k < at + i then data[k - at] else old(buffer[k])
      {
        buffer[at + i] := data[i];
      }
      CopiedAtIndex(old(buffer[..]), at, data);
    }

    /** A header's `size` field, stored in place. */
    method StoreU32(at: nat, x: nat)
      requires at + 4 <= buffer.Length && x < U32_LIMIT
      modifies buffer
      ensures buffer[..] == WithU32At(old(buffer[..]), at, x)
    {
      CopyInto(at, U32Bytes(x));
    }

    /** `Forge::write_raw_padded`: copies `data` at the position and
        advances it by the padded size; the result is where the copy
        starts. */
    method ForgeWriteRawPadded(data: seq<Byte>) returns (r: Run<nat>)
      modifies this, buffer
      ensures r.Done? <==> ForgeRawPadded(old(State()), data).Done?
      ensures r.Panic? ==> r.reason == ForgeRawPadded(old(State()), data).reason
      ensures r.Done? ==> r.value == old(position) && State() == ForgeRawPadded(old(State()), data).value
    {
      var end := position + |data|;
      if end >= USIZE_LIMIT { return Panic("attempt to add with overflow"); }
      if end > buffer.Length { return Panic("range end index out of range for slice"); }
      CopyInto(position, data);
      var pad := PadSize(|data| % U32_LIMIT);
      if pad.Panic? { return Panic(pad.reason); }
      if position + pad.value >= USIZE_LIMIT { return Panic("attempt to add with overflow"); }
      r := Done(position);
      position := position + pad.value;
    }

    /** `add_size` on the header of the `j`-th open sequence. */
    method AddSize(j: nat, pad: nat) returns (r: Run<()>)
      requires HeadersIn(State()) && 0 < j <= |open|
      modifies buffer
      ensures r.Panic? <==> U32At(old(buffer[..]), open[j - 1]) + pad >= U32_LIMIT
      ensures r.Panic? ==> r.reason == "attempt to add with overflow"
      ensures r.Panic? ==> AddSizes(old(buffer[..]), open[..j], pad) == Panic(r.reason)
      ensures r.Done? ==> AddSizes(buffer[..], open[..j - 1], pad) == AddSizes(old(buffer[..]), open[..j], pad)
    {
      var h := open[j - 1];
      var size := U32At(buffer[..], h);
      if size + pad >= U32_LIMIT {
        AddSizesStepPanic(buffer[..], open, j, pad);
        return Panic("attempt to add with overflow");
      }
      StoreU32(h, size + pad);
      AddSizesStepDone(old(buffer[..]), buffer[..], open, j, pad);
      return Done(());
    }

    /** Every open `ForgeSequence`, innermost first, adds `pad` to its
        header's size. */
    method GrowHeaders(pad: nat) returns (r: Run<()>)
      requires HeadersIn(State())
      modifies buffer
      ensures r.Done? <==> AddSizes(old(buffer[..]), open, pad).Done?
      ensures r.Panic? ==> r.reason == AddSizes(old(buffer[..]), open, pad).reason
      ensures r.Done? ==> buffer[..] == AddSizes(old(buffer[..]), open, pad).value
    {
      var j := |open|;
      ghost var target := AddSizes(buffer[..], open, pad);
      assert open[..j] == open;
      while j > 0
        invariant 0 <= j <= |open|
        invariant AddSizes(buffer[..], open[..j], pad) == target
      {
        r := AddSize(j, pad);
        if r.Panic? { return; }
        j := j - 1;
      }
      assert AddSizes(buffer[..], open[..0], pad) == Done(buffer[..]);
      return Done(());
    }

    /** `write_raw_padded` through the innermost level: the open
        headers grow, then the forge copies. */
    method WriteRawPadded(data: seq<Byte>) returns (r: Run<nat>)
      requires HeadersIn(State())
      modifies this, buffer
      ensures r.Done? <==> Write(old(State()), data).Done?
      ensures r.Panic? ==> r.reason == Write(old(State()), data).reason
      ensures r.Done? ==> r.value == old(position) && State() == Write(old(State()), data).value
      ensures Valid(old(State())) && old(position) + |data| <= buffer.Length && buffer.Length + ATOM_HEADER_SIZE <= U32_LIMIT ==> r.Done?
    {
      if Valid(State()) && position + |data| <= buffer.Length && buffer.Length + ATOM_HEADER_SIZE <= U32_LIMIT {
        WriteDone(State(), data);
      }
      if |open| == 0 {
        r := ForgeWriteRawPadded(data);
        return;
      }
      var pad := PadSize(|data| % U32_LIMIT);
      if pad.Panic? { return Panic(pad.reason); }
      var grown := GrowHeaders(pad.value);
      if grown.Panic? { return Panic(grown.reason); }
      r := ForgeWriteRawPadded(data);
    }

    /** `Forger::write_atom` at the innermost level. */
    method WriteAtom(a: AtomValue, urid: nat) returns (r: Run<()>)
      requires Valid(State()) && WellFormedAtom(a) && urid < U32_LIMIT
      modifies this, buffer
      ensures r.Done? <==> Forges.WriteAtom(old(State()), a, urid).Done?
      ensures r.Panic? ==> r.reason == Forges.WriteAtom(old(State()), a, urid).reason
      ensures r.Done? ==> State() == Forges.WriteAtom(old(State()), a, urid).value
      ensures r.Done? ==> Valid(State()) && KeepsBelow(old(State()), State())
      ensures old(position) + ATOM_HEADER_SIZE + |a.body| <= buffer.Length && buffer.Length + ATOM_HEADER_SIZE <= U32_LIMIT ==> r.Done?
      ensures r.Done? ==> PadSize(|AtomBytes(a)| % U32_LIMIT).Done? &&
                          position == old(position) + PadSize(|AtomBytes(a)| % U32_LIMIT).value && open == old(open)
    {
      ghost var s := State();
      var at := WriteRawPadded(AtomBytes(a));
      if at.Panic? { return Panic(at.reason); }
      StoreU32(at.value + 4, urid);
      WriteAtomKeepsValid(s, a, urid);
      WriteAtomKeepsBelow(s, a, urid);
      return Done(());
    }

    /** `ForgeSequence::new`: writes a sequence header through the
        innermost level and opens it. */
    method OpenSequence(sequenceUrid: nat, unitUrid: nat) returns (r: Run<()>)
      requires Valid(State()) && sequenceUrid < U32_LIMIT && unitUrid < U32_LIMIT
      modifies this, buffer
      ensures r.Done? <==> Forges.BeginSequence(old(State()), sequenceUrid, unitUrid).Done?
      ensures r.Panic? ==> r.reason == Forges.BeginSequence(old(State()), sequenceUrid, unitUrid).reason
      ensures r.Done? ==> State() == Forges.BeginSequence(old(State()), sequenceUrid, unitUrid).value
      ensures r.Done? ==> Valid(State()) && KeepsBelow(old(State()), State())
      ensures old(position) + SEQUENCE_HEADER_SIZE <= buffer.Length && buffer.Length + ATOM_HEADER_SIZE <= U32_LIMIT ==> r.Done?
      ensures r.Done? ==> position == old(position) + SEQUENCE_HEADER_SIZE && open == old(open) + [old(position)]
    {
      ghost var s := State();
      var at := WriteRawPadded(SequenceHeader(sequenceUrid, unitUrid));
      if at.Panic? { return Panic(at.reason); }
      open := open + [at.value];
      BeginSequenceKeepsValid(s, sequenceUrid, unitUrid);
      BeginSequenceKeepsBelow(s, sequenceUrid, unitUrid);
      return Done(());
    }

    /** `Forge::begin_sequence`: the outermost sequence. */
    method BeginSequence(sequenceUrid: nat, unitUrid: nat) returns (r: Run<()>)
      requires Valid(State()) && open == [] && sequenceUrid < U32_LIMIT && unitUrid < U32_LIMIT
      modifies this, buffer
      ensures r.Done? <==> Forges.BeginSequence(old(State()), sequenceUrid, unitUrid).Done?
      ensures r.Panic? ==> r.reason == Forges.BeginSequence(old(State()), sequenceUrid, unitUrid).reason
      ensures r.Done? ==> State() == Forges.BeginSequence(old(State()), sequenceUrid, unitUrid).value
      ensures r.Done? ==> Valid(State()) && KeepsBelow(old(State()), State())
      ensures old(position) + SEQUENCE_HEADER_SIZE <= buffer.Length && buffer.Length + ATOM_HEADER_SIZE <= U32_LIMIT ==> r.Done?
      ensures r.Done? ==> position == old(position) + SEQUENCE_HEADER_SIZE && open == old(open) + [old(position)]
    {
      r := OpenSequence(sequenceUrid, unitUrid);
    }

    /** `ForgeSequence::write_event`: the time stamp, then the atom. */
    method WriteEvent(time: nat, a: AtomValue, urid: nat) returns (r: Run<()>)
      requires Valid(State()) && open != [] && time < U64_LIMIT && WellFormedAtom(a) && urid < U32_LIMIT
      modifies this, buffer
      ensures r.Done? <==> Forges.WriteEvent(old(State()), time, a, urid).Done?
      ensures r.Panic? ==> r.reason == Forges.WriteEvent(old(State()), time, a, urid).reason
      ensures r.Done? ==> State() == Forges.WriteEvent(old(State()), time, a, urid).value
      ensures r.Done? ==> Valid(State()) && KeepsBelow(old(State()), State())
      ensures old(position) + 8 + ATOM_HEADER_SIZE + |a.body| <= buffer.Length && buffer.Length + ATOM_HEADER_SIZE <= U32_LIMIT ==> r.Done?
      ensures r.Done? ==> PadSize(|AtomBytes(a)| % U32_LIMIT).Done? &&
                          position == old(position) + 8 + PadSize(|AtomBytes(a)| % U32_LIMIT).value && open == old(open)
    {
      ghost var s := State();
      var at := WriteRawPadded(U64Bytes(time));
      if at.Panic? { return Panic(at.reason); }
      WriteKeepsValid(s, U64Bytes(time));
      WriteKeepsBelow(s, U64Bytes(time));
      r := WriteAtom(a, urid);
      if r.Done? {
        KeepsBelowTrans(s, Write(s, U64Bytes(time)).value, State());
      }
    }

    /** `ForgeSequence::begin_sequence`: the time stamp, then a nested
        sequence. */
    method BeginNestedSequence(time: nat, sequenceUrid: nat, unitUrid: nat) returns (r: Run<()>)
      requires Valid(State()) && open != [] && time < U64_LIMIT && sequenceUrid < U32_LIMIT && unitUrid < U32_LIMIT
      modifies this, buffer
      ensures r.Done? <==> Forges.BeginNestedSequence(old(State()), time, sequenceUrid, unitUrid).Done?
      ensures r.Panic? ==> r.reason == Forges.BeginNestedSequence(old(State()), time, sequenceUrid, unitUrid).reason
      ensures r.Done? ==> State() == Forges.BeginNestedSequence(old(State()), time, sequenceUrid, unitUrid).value
      ensures r.Done? ==> Valid(State()) && KeepsBelow(old(State()), State())
      ensures old(position) + 8 + SEQUENCE_HEADER_SIZE <= buffer.Length && buffer.Length + ATOM_HEADER_SIZE <= U32_LIMIT ==> r.Done?
      ensures r.Done? ==> position == old(position) + 8 + SEQUENCE_HEADER_SIZE && open == old(open) + [old(position) + 8]
    {
      ghost var s := State();
      var at := WriteRawPadded(U64Bytes(time));
      if at.Panic? { return Panic(at.reason); }
      WriteKeepsValid(s, U64Bytes(time));
      WriteKeepsBelow(s, U64Bytes(time));
      r := OpenSequence(sequenceUrid, unitUrid);
      if r.Done? {
        KeepsBelowTrans(s, Write(s, U64Bytes(time)).value, State());
      }
    }

    /** Dropping the innermost `ForgeSequence`. */
    method EndSequence()
      requires Valid(State()) && open != []
      modifies this
      ensures State() == Forges.EndSequence(old(State())) && Valid(State())
    {
      open := open[..|open| - 1];
    }
  }

  /** A step of `test_deep_sequence`: a sequence of frames (URID 3)
      nested at `time` in the innermost open one. */
  method NestAt(forge: Forge, time: nat)
    requires Valid(forge.State()) && forge.open != [] && time < U64_LIMIT
    requires forge.buffer.Length == 256 && forge.position + 8 + SEQUENCE_HEADER_SIZE <= 256
    modifies forge, forge.buffer
    ensures Valid(forge.State()) && forge.position == old(forge.position) + 24
    ensures forge.open == old(forge.open) + [old(forge.position) + 8]
  {
    var r := forge.BeginNestedSequence(time, 4, 3);
  }

  /** A step of `test_deep_sequence`: the float 42.0 (URID 1, given by
      its bytes) at `time` in the innermost open sequence. */
  method FloatEventAt(forge: Forge, time: nat)
    requires Valid(forge.State()) && forge.open != [] && time < U64_LIMIT
    requires forge.buffer.Length == 256 && forge.position + 8 + ATOM_HEADER_SIZE + 4 <= 256
    modifies forge, forge.buffer
    ensures Valid(forge.State()) && forge.position == old(forge.position) + 24 && forge.open == old(forge.open)
    ensures KeepsBelow(old(forge.State()), forge.State())
  {
    var float := AtomValue(1, [0, 0, 40, 66]);
    assert |AtomBytes(float)| % U32_LIMIT == 12;
    assert PadSize(12).value == 16;
    var r := forge.WriteEvent(time, float, 1);
  }

  /** The start of `test_deep_sequence`: a sequence of frames (URIDs 4
      and 3) at the start of a fresh, zeroed 256-byte buffer. */
  method StartSequence() returns (forge: Forge)
    ensures fresh(forge) && fresh(forge.buffer) && forge.buffer.Length == 256
    ensures Valid(forge.State()) && forge.position == 16 && forge.open == [0]
  {
    var buffer := new Byte[256](_ => 0);
    forge := new Forge(buffer);
    var r := forge.BeginSequence(4, 3);
  }

  /** The first part of `test_deep_sequence`: three more sequences nested
      in the first at times 2, 4 and 6. */
  method OpenFourSequences() returns (forge: Forge)
    ensures fresh(forge) && fresh(forge.buffer) && forge.buffer.Length == 256
    ensures Valid(forge.State()) && forge.position == 88 && |forge.open| == 4
    ensures forge.open[0] == 0 && forge.open[1] == 24 && forge.open[2] == 48 && forge.open[3] == 72
  {
    forge := StartSequence();
    NestAt(forge, 2);
    NestAt(forge, 4);
    NestAt(forge, 6);
  }

  /** The middle of `test_deep_sequence`: an event at time 8 in the
      innermost sequence, which is then dropped with 32 bytes recorded. */
  method FillInnermost(forge: Forge)
    requires forge.buffer.Length == 256
    requires Valid(forge.State()) && forge.position == 88 && |forge.open| == 4
    requires forge.open[0] == 0 && forge.open[1] == 24 && forge.open[2] == 48 && forge.open[3] == 72
    modifies forge, forge.buffer
    ensures Valid(forge.State()) && forge.position == 112 && |forge.open| == 3
    ensures forge.open[0] == 0 && forge.open[1] == 24 && forge.open[2] == 48
    ensures U32At(forge.buffer[..], 72) == 32
  {
    FloatEventAt(forge, 8);
    OpenSize(forge.State(), 3);
    forge.EndSequence();
  }

  /** `test_deep_sequence`: four sequences of frames nested in a
      256-byte buffer, an event in the innermost, then one in its parent
      once the innermost is dropped. The four sequence headers end up
      saying 128, 104, 80 and 32 bytes, and the forge stops at 136. */
  method DeepSequence() returns (sizes: seq<nat>, position: nat)
    ensures sizes == [128, 104, 80, 32] && position == 136
  {
    var forge := OpenFourSequences();
    FillInnermost(forge);
    ghost var before := forge.State();
    FloatEventAt(forge, 10);
    KeepsBelowU32(before, forge.State(), 72);
    OpenSize(forge.State(), 0);
    OpenSize(forge.State(), 1);
    OpenSize(forge.State(), 2);
    var buf := forge.buffer[..];
    sizes := [U32At(buf, 0), U32At(buf, 24), U32At(buf, 48), U32At(buf, 72)];
    position := forge.position;
  }
}
