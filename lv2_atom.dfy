/** The sequence helpers of the LV2 Atom extension as bound in
    lv2/lv2-sys/src/atom.rs. Pointers are byte offsets into one buffer;
    `LV2_Atom_Sequence_Body` is 8 bytes (`unit`, `pad`) and
    `LV2_Atom_Event` 16 (an 8-byte time stamp, then an 8-byte atom
    header). */
module Lv2Atom {
  import opened Wrappers
  import opened Numeric

  const SEQUENCE_BODY_SIZE: nat := 8
  const EVENT_HEADER_SIZE: nat := 16

  /** `lv2_atom_pad_size`: `(size + 7) & !7` in `u32`. The addition
      overflows, which panics, for the last seven sizes. */
  function PadSize(size: nat): (r: Run<nat>)
    requires size < U32_LIMIT
    ensures r.Done? <==> size + 7 < U32_LIMIT
    ensures r.Done? ==> r.value % 8 == 0 && size <= r.value < size + 8 && r.value < U32_LIMIT
    ensures r.Done? ==> forall m: nat :: m % 8 == 0 && size <= m ==> r.value <= m
  {
    if size + 7 >= U32_LIMIT then Panic("attempt to add with overflow")
    else
      // clearing the three low bits rounds down to a multiple of 8
      Done((size + 7) - (size + 7) % 8)
  }

  /** A padded size is its own padding. */
  lemma {:induction false} PadSizeIdempotent(size: nat)
    requires size < U32_LIMIT && PadSize(size).Done?
    ensures PadSize(PadSize(size).value) == PadSize(size)
  {
    var p := PadSize(size).value;
    assert p + 7 < U32_LIMIT;
  }

  /** `lv2_atom_sequence_begin`: the first event is one body struct past
      the body. The atom's `size` counts the body struct, so a sequence is
      at its end from the start exactly when it holds no more than the body
      struct; an aligned body gives an aligned first event. */
  function SequenceBegin(body: nat): (r: nat)
    ensures forall size: nat :: SequenceIsEnd(body, size, r) <==> size <= SEQUENCE_BODY_SIZE
    ensures body % 8 == 0 ==> r % 8 == 0
  {
    body + SEQUENCE_BODY_SIZE
  }

  /** `lv2_atom_sequence_is_end`: the event offset is at or past the end of
      the `size` bytes from the body. */
  predicate SequenceIsEnd(body: nat, size: nat, i: nat) {
    i >= body + size
  }

  /** The end is reached for every later offset, and for every smaller size. */
  lemma SequenceIsEndMonotone(body: nat, size: nat, i: nat)
    requires SequenceIsEnd(body, size, i)
    ensures forall j: nat :: j >= i ==> SequenceIsEnd(body, size, j)
    ensures forall s: nat :: s <= size ==> SequenceIsEnd(body, s, i)
  {
  }

  /** `lv2_atom_sequence_next`: past the event header and the padded body
      of the event, whose size is read from its header. */
  function SequenceNext(event: nat, bodySize: nat): (r: Run<nat>)
    requires bodySize < U32_LIMIT
    ensures r.Done? <==> PadSize(bodySize).Done?
    ensures r.Done? ==> r.value >= event + EVENT_HEADER_SIZE + bodySize && r.value < event + EVENT_HEADER_SIZE + bodySize + 8
    ensures r.Done? ==> (r.value - event) % 8 == 0
  {
    var p := PadSize(bodySize);
    if p.Panic? then Panic(p.reason) else Done(event + EVENT_HEADER_SIZE + p.value)
  }

  /** Iterating a sequence ends: once at the end, a step stays at the end;
      before it, a step moves at least one event header closer to it, so a
      sequence of `size` bytes yields at most `size / 16` events. */
  lemma SequenceIterEnds(body: nat, size: nat, i: nat, bodySize: nat)
    requires bodySize < U32_LIMIT && SequenceNext(i, bodySize).Done?
    ensures var n := SequenceNext(i, bodySize).value;
      (SequenceIsEnd(body, size, i) ==> SequenceIsEnd(body, size, n)) &&
      (!SequenceIsEnd(body, size, i) ==> SequenceIsEnd(body, size, n) || body + size - n <= body + size - i - EVENT_HEADER_SIZE)
  {
  }

  /** Stepping keeps events on 8-byte boundaries of an aligned buffer. */
  lemma {:induction false} SequenceNextAligned(event: nat, bodySize: nat)
    requires bodySize < U32_LIMIT && event % 8 == 0 && SequenceNext(event, bodySize).Done?
    ensures SequenceNext(event, bodySize).value % 8 == 0
  {
    var n := SequenceNext(event, bodySize).value;
    assert n == event + (n - event);
  }
}
