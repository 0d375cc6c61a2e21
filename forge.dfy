/** The atom forge of lv2/src/atom/forge.rs: it copies atoms into a byte
    buffer and, while sequences are open, adds the padded size of every
    write to the header of each enclosing sequence. Pointers are byte
    offsets into the buffer; an open `ForgeSequence` is the offset of its
    header, and the chain of `parent` borrows is the stack `open`,
    outermost first. Every write goes through the innermost sequence, as
    the borrows force. */
module Forges {
  import opened Wrappers
  import opened Numeric
  import opened Lv2Atom

  /** `size_of::<LV2_Atom>()`: a `u32` size, then a `u32` type. */
  const ATOM_HEADER_SIZE: nat := 8
  /** `size_of::<LV2_Atom_Sequence>()`: the atom header and the body's
      `unit` and `pad`. */
  const SEQUENCE_HEADER_SIZE: nat := 16

  function Pow256(n: nat): (r: nat)
    ensures r > 0
  {
    if n == 0 then 1 else 256 * Pow256(n - 1)
  }

  lemma Pow256Limits()
    ensures Pow256(8) == U64_LIMIT
  {
    assert Pow256(1) == 256;
    assert Pow256(2) == 0x1_0000;
    assert Pow256(3) == 0x100_0000;
    assert Pow256(4) == 0x1_0000_0000;
    assert Pow256(5) == 0x100_0000_0000;
    assert Pow256(6) == 0x1_0000_0000_0000;
    assert Pow256(7) == 0x100_0000_0000_0000;
  }

  /** The `n` bytes of `x`, least significant first. */
  function LittleEndian(x: nat, n: nat): (r: seq<Byte>)
    requires x < Pow256(n)
    ensures |r| == n
  {
    if n == 0 then [] else [x % 256] + LittleEndian(x / 256, n - 1)
  }

  /** The `u32` at byte offset `at`, little-endian. */
  function U32At(buf: seq<Byte>, at: nat): (r: nat)
    requires at + 4 <= |buf|
    ensures r < U32_LIMIT
  {
    buf[at] as int + 0x100 * buf[at + 1] as int + 0x1_0000 * buf[at + 2] as int + 0x100_0000 * buf[at + 3] as int
  }

  /** A `u32` as it lies in memory on a little-endian machine. */
  function U32Bytes(x: nat): (r: seq<Byte>)
    requires x < U32_LIMIT
    ensures |r| == 4 && U32At(r, 0) == x
  {
    var q1 := x / 0x100;
    var q2 := q1 / 0x100;
    var q3 := q2 / 0x100;
    [x % 0x100, q1 % 0x100, q2 % 0x100, q3]
  }

  /** An `u64` time stamp (`Frame`) as it lies in memory. */
  function U64Bytes(x: nat): (r: seq<Byte>)
    requires x < U64_LIMIT
    ensures |r| == 8
  {
    Pow256Limits();
    LittleEndian(x, 8)
  }

  /** `buf` with `data` copied in at `at` (`copy_from_slice`), one
      byte after the other. */
  function CopiedAt(buf: seq<Byte>, at: nat, data: seq<Byte>): (r: seq<Byte>)
    requires at + |data| <= |buf|
    ensures |r| == |buf|
    decreases |data|
  {
    if |data| == 0 then buf else CopiedAt(buf[at := data[0]], at + 1, data[1..])
  }

  /** The copy holds `data` at `at` and `buf` everywhere else. */
  lemma {:induction false} CopiedAtIndex(buf: seq<Byte>, at: nat, data: seq<Byte>)
    requires at + |data| <= |buf|
    ensures forall k :: 0 <= k < |buf| ==>
      CopiedAt(buf, at, data)[k] == if at <= k < at + |data| then data[k - at] else buf[k]
    decreases |data|
  {
    if |data| > 0 {
      CopiedAtIndex(buf[at := data[0]], at + 1, data[1..]);
    }
  }

  /** ... and so the copied range reads back as `data`. */
  lemma CopiedAtRange(buf: seq<Byte>, at: nat, data: seq<Byte>)
    requires at + |data| <= |buf|
    ensures CopiedAt(buf, at, data)[at..at + |data|] == data
  {
    CopiedAtIndex(buf, at, data);
  }

  /** `buf` with the `u32` at `at` replaced by `x`. */
  function WithU32At(buf: seq<Byte>, at: nat, x: nat): (r: seq<Byte>)
    requires at + 4 <= |buf| && x < U32_LIMIT
    ensures |r| == |buf| && U32At(r, at) == x
  {
    CopiedAtIndex(buf, at, U32Bytes(x));
    CopiedAt(buf, at, U32Bytes(x))
  }

  /** Replacing one `u32` changes no byte outside it. */
  lemma WithU32AtOutside(buf: seq<Byte>, at: nat, x: nat)
    requires at + 4 <= |buf| && x < U32_LIMIT
    ensures forall k :: 0 <= k < |buf| && !(at <= k < at + 4) ==> WithU32At(buf, at, x)[k] == buf[k]
  {
    CopiedAtIndex(buf, at, U32Bytes(x));
  }

  /** Replacing one `u32` leaves a `u32` that does not overlap it alone. */
  lemma WithU32AtKeeps(buf: seq<Byte>, h: nat, x: nat, at: nat)
    requires h + 4 <= |buf| && x < U32_LIMIT && at + 4 <= |buf|
    requires at + 4 <= h || h + 4 <= at
    ensures U32At(WithU32At(buf, h, x), at) == U32At(buf, at)
  {
    WithU32AtOutside(buf, h, x);
  }

  /** An atom as `ToAtom::to_atom` builds it: its header's type and its
      body; the header's size is the body's length. */
  datatype AtomValue = AtomValue(type_: nat, body: seq<Byte>)

  predicate WellFormedAtom(a: AtomValue) { a.type_ < U32_LIMIT && |a.body| < U32_LIMIT }

  /** The bytes of an atom: size, type, body. `get_total_size` is its length. */
  function AtomBytes(a: AtomValue): (r: seq<Byte>)
    requires WellFormedAtom(a)
    ensures |r| == ATOM_HEADER_SIZE + |a.body|
    ensures U32At(r, 0) == |a.body| && U32At(r, 4) == a.type_ && r[ATOM_HEADER_SIZE..] == a.body
  {
    var r := U32Bytes(|a.body|) + U32Bytes(a.type_) + a.body;
    assert r[0..4] == U32Bytes(|a.body|) && r[4..8] == U32Bytes(a.type_);
    r
  }

  /** `AtomSequence::new_header`: size 8 (the body), the sequence type,
      then the body's `unit` and a zero `pad`. */
  function SequenceHeader(sequenceUrid: nat, unitUrid: nat): (r: seq<Byte>)
    requires sequenceUrid < U32_LIMIT && unitUrid < U32_LIMIT
    ensures |r| == SEQUENCE_HEADER_SIZE
    ensures U32At(r, 0) == SEQUENCE_BODY_SIZE && U32At(r, 4) == sequenceUrid
    ensures U32At(r, 8) == unitUrid && U32At(r, 12) == 0
  {
    var r := U32Bytes(SEQUENCE_BODY_SIZE) + U32Bytes(sequenceUrid) + U32Bytes(unitUrid) + U32Bytes(0);
    assert r[0..4] == U32Bytes(SEQUENCE_BODY_SIZE) && r[4..8] == U32Bytes(sequenceUrid);
    assert r[8..12] == U32Bytes(unitUrid) && r[12..16] == U32Bytes(0);
    r
  }

  /** The buffer, the write position and the open sequences' headers. */
  datatype ForgeState = ForgeState(buf: seq<Byte>, position: nat, open: seq<nat>)

  /** Every open header's size field lies in the buffer. */
  predicate HeadersIn(s: ForgeState)
  {
    forall j :: 0 <= j < |s.open| ==> s.open[j] + 4 <= |s.buf|
  }

  /** The invariant the forge keeps: each open sequence header (and its
      body) was written inside the buffer, after its parent's, and the
      size it records is exactly what lies between its body and the
      write position. */
  predicate Valid(s: ForgeState)
  {
    (forall j :: 0 <= j < |s.open| ==>
       s.open[j] + SEQUENCE_HEADER_SIZE <= s.position && s.open[j] + SEQUENCE_HEADER_SIZE <= |s.buf|) &&
    (forall i, j :: 0 <= i < j < |s.open| ==> s.open[i] + SEQUENCE_HEADER_SIZE <= s.open[j]) &&
    (forall j :: 0 <= j < |s.open| ==> U32At(s.buf, s.open[j]) + ATOM_HEADER_SIZE == s.position - s.open[j])
  }

  /** `Forge::new`. */
  function NewForge(buf: seq<Byte>): (r: ForgeState)
    ensures Valid(r) && r.position == 0 && r.open == [] && r.buf == buf
  {
    ForgeState(buf, 0, [])
  }

  /** `Forge::write_raw_padded`: `position + size` (which can overflow),
      the slice `buffer[position..end]` (which panics past the end), the
      copy, then `position += lv2_atom_pad_size(size as u32)`. */
  function ForgeRawPadded(s: ForgeState, data: seq<Byte>): (r: Run<ForgeState>)
    ensures r.Done? ==> s.position + |data| <= |s.buf| && |data| % U32_LIMIT + 7 < U32_LIMIT
    ensures s.position + |data| <= |s.buf| && |s.buf| + ATOM_HEADER_SIZE <= U32_LIMIT ==> r.Done?
    ensures r.Done? ==> r.value.open == s.open && |r.value.buf| == |s.buf|
    ensures r.Done? ==> r.value.position == s.position + PadSize(|data| % U32_LIMIT).value
    ensures r.Done? ==> r.value.buf == CopiedAt(s.buf, s.position, data)
  {
    var end := s.position + |data|;
    if end >= USIZE_LIMIT then Panic("attempt to add with overflow")
    else if end > |s.buf| then Panic("range end index out of range for slice")
    else
      var pad := PadSize(|data| % U32_LIMIT);
      if pad.Panic? then Panic(pad.reason)
      else if s.position + pad.value >= USIZE_LIMIT then Panic("attempt to add with overflow")
      else Done(ForgeState(CopiedAt(s.buf, s.position, data), s.position + pad.value, s.open))
  }

  /** The buffer once the innermost of `headers` has grown by `pad`. */
  function Bumped(buf: seq<Byte>, headers: seq<nat>, pad: nat): (r: seq<Byte>)
    requires forall j :: 0 <= j < |headers| ==> headers[j] + 4 <= |buf|
    requires |headers| > 0 && U32At(buf, headers[|headers| - 1]) + pad < U32_LIMIT
    ensures |r| == |buf|
  {
    WithU32At(buf, headers[|headers| - 1], U32At(buf, headers[|headers| - 1]) + pad)
  }

  /** The sequences' share of `ForgeSequence::write_raw_padded`: from
      the innermost header outwards, each adds `pad` to its `u32` size,
      an addition that can overflow. */
  function AddSizes(buf: seq<Byte>, headers: seq<nat>, pad: nat): (r: Run<seq<Byte>>)
    requires forall j :: 0 <= j < |headers| ==> headers[j] + 4 <= |buf|
    ensures r.Done? ==> |r.value| == |buf|
    decreases |headers|
  {
    if |headers| == 0 then Done(buf)
    else if U32At(buf, headers[|headers| - 1]) + pad >= U32_LIMIT then Panic("attempt to add with overflow")
    else AddSizes(Bumped(buf, headers, pad), headers[..|headers| - 1], pad)
  }

  /** A write through the innermost open `ForgeSequence`, or through the
      forge when none is open. Each level computes the same
      `lv2_atom_pad_size(size as u32)`, so only the innermost can panic
      there; then every header grows, then the forge copies. */
  function Write(s: ForgeState, data: seq<Byte>): (r: Run<ForgeState>)
    requires HeadersIn(s)
    ensures r.Done? ==> r.value.open == s.open && |r.value.buf| == |s.buf|
    ensures r.Done? ==> |data| % U32_LIMIT + 7 < U32_LIMIT && s.position + |data| <= |s.buf|
    ensures r.Done? ==> r.value.position == s.position + PadSize(|data| % U32_LIMIT).value
  {
    if |s.open| == 0 then ForgeRawPadded(s, data)
    else
      var pad := PadSize(|data| % U32_LIMIT);
      if pad.Panic? then Panic(pad.reason)
      else
        var buf := AddSizes(s.buf, s.open, pad.value);
        if buf.Panic? then Panic(buf.reason)
        else ForgeRawPadded(s.(buf := buf.value), data)
  }

  /** `Forger::write_atom`: `write_atom_inner` copies the atom's
      `get_total_size()` bytes, then `update_type_id` stores the type
      URID into the copy. */
  function WriteAtom(s: ForgeState, a: AtomValue, urid: nat): (r: Run<ForgeState>)
    requires HeadersIn(s) && WellFormedAtom(a) && urid < U32_LIMIT
    ensures r.Done? ==> r.value.open == s.open && |r.value.buf| == |s.buf|
    ensures r.Done? ==> PadSize(|AtomBytes(a)| % U32_LIMIT).Done? &&
                        r.value.position == s.position + PadSize(|AtomBytes(a)| % U32_LIMIT).value
  {
    var w := Write(s, AtomBytes(a));
    if w.Panic? then Panic(w.reason)
    else
      assert PadSize(|AtomBytes(a)| % U32_LIMIT).Done?;
      Done(w.value.(buf := WithU32At(w.value.buf, s.position + 4, urid)))
  }

  /** `ForgeSequence::new`: the sequence header is written through the
      current innermost level and becomes the new innermost sequence. */
  function BeginSequence(s: ForgeState, sequenceUrid: nat, unitUrid: nat): (r: Run<ForgeState>)
    requires HeadersIn(s) && sequenceUrid < U32_LIMIT && unitUrid < U32_LIMIT
    ensures r.Done? ==> r.value.open == s.open + [s.position] && |r.value.buf| == |s.buf|
    ensures r.Done? ==> r.value.position == s.position + SEQUENCE_HEADER_SIZE
  {
    var w := Write(s, SequenceHeader(sequenceUrid, unitUrid));
    if w.Panic? then Panic(w.reason)
    else Done(w.value.(open := w.value.open + [s.position]))
  }

  /** `ForgeSequence::write_event`: the time stamp, then the atom. */
  function WriteEvent(s: ForgeState, time: nat, a: AtomValue, urid: nat): (r: Run<ForgeState>)
    requires HeadersIn(s) && time < U64_LIMIT && WellFormedAtom(a) && urid < U32_LIMIT
    ensures r.Done? ==> r.value.open == s.open && |r.value.buf| == |s.buf|
    ensures r.Done? ==> PadSize(|AtomBytes(a)| % U32_LIMIT).Done? &&
                        r.value.position == s.position + 8 + PadSize(|AtomBytes(a)| % U32_LIMIT).value
  {
    var w := Write(s, U64Bytes(time));
    if w.Panic? then Panic(w.reason)
    else WriteAtom(w.value, a, urid)
  }

  /** `ForgeSequence::begin_sequence`: the time stamp, then a nested
      sequence. */
  function BeginNestedSequence(s: ForgeState, time: nat, sequenceUrid: nat, unitUrid: nat): (r: Run<ForgeState>)
    requires HeadersIn(s) && time < U64_LIMIT && sequenceUrid < U32_LIMIT && unitUrid < U32_LIMIT
    ensures r.Done? ==> r.value.open == s.open + [s.position + 8] && |r.value.buf| == |s.buf|
    ensures r.Done? ==> r.value.position == s.position + 8 + SEQUENCE_HEADER_SIZE
  {
    var w := Write(s, U64Bytes(time));
    if w.Panic? then Panic(w.reason)
    else BeginSequence(w.value, sequenceUrid, unitUrid)
  }

  /** Dropping the innermost `ForgeSequence`: its header stays as
      written. */
  function EndSequence(s: ForgeState): (r: ForgeState)
    requires |s.open| > 0
    ensures r.buf == s.buf && r.position == s.position && r.open == s.open[..|s.open| - 1]
  {
    s.(open := s.open[..|s.open| - 1])
  }

  /** One step of `AddSizes` that overflows. */
  lemma AddSizesStepPanic(buf: seq<Byte>, headers: seq<nat>, j: nat, pad: nat)
    requires forall i :: 0 <= i < |headers| ==> headers[i] + 4 <= |buf|
    requires 0 < j <= |headers| && U32At(buf, headers[j - 1]) + pad >= U32_LIMIT
    ensures AddSizes(buf, headers[..j], pad) == Panic("attempt to add with overflow")
  {
  }

  /** One step of `AddSizes` that does not overflow, from the buffer
      before the step to the one after it. */
  lemma AddSizesStepDone(before: seq<Byte>, after: seq<Byte>, headers: seq<nat>, j: nat, pad: nat)
    requires forall i :: 0 <= i < |headers| ==> headers[i] + 4 <= |before|
    requires 0 < j <= |headers| && U32At(before, headers[j - 1]) + pad < U32_LIMIT
    requires after == WithU32At(before, headers[j - 1], U32At(before, headers[j - 1]) + pad)
    ensures AddSizes(after, headers[..j - 1], pad) == AddSizes(before, headers[..j], pad)
  {
    var prefix := headers[..j];
    assert prefix[..j - 1] == headers[..j - 1] && prefix[j - 1] == headers[j - 1];
    assert Bumped(before, prefix, pad) == after;
  }

  /** `k` is in the size field of one of `headers`. */
  predicate InField(headers: seq<nat>, k: nat)
  {
    exists j :: 0 <= j < |headers| && headers[j] <= k < headers[j] + 4
  }

  /** The size fields of `headers` are in order and apart. */
  predicate Apart(headers: seq<nat>)
  {
    forall i, j :: 0 <= i < j < |headers| ==> headers[i] + 4 <= headers[j]
  }

  /** Adding sizes changes no byte outside the headers' size fields. */
  lemma {:induction false} AddSizesFrame(buf: seq<Byte>, headers: seq<nat>, pad: nat)
    requires forall j :: 0 <= j < |headers| ==> headers[j] + 4 <= |buf|
    requires AddSizes(buf, headers, pad).Done?
    ensures forall k :: 0 <= k < |buf| && !InField(headers, k) ==> AddSizes(buf, headers, pad).value[k] == buf[k]
    decreases |headers|
  {
    if |headers| > 0 {
      var last := headers[|headers| - 1];
      AddSizesFrame(Bumped(buf, headers, pad), headers[..|headers| - 1], pad);
      WithU32AtOutside(buf, last, U32At(buf, last) + pad);
      forall k | 0 <= k < |buf| && !InField(headers, k)
        ensures AddSizes(buf, headers, pad).value[k] == buf[k]
      {
        assert !InField(headers[..|headers| - 1], k);
      }
    }
  }

  /** The innermost header grows by `pad`: the outer ones, changed
      after it, lie before it. */
  lemma GrowLast(buf: seq<Byte>, headers: seq<nat>, pad: nat)
    requires forall j :: 0 <= j < |headers| ==> headers[j] + 4 <= |buf|
    requires |headers| > 0 && AddSizes(buf, headers, pad).Done?
    requires forall j :: 0 <= j < |headers| - 1 ==> headers[j] + 4 <= headers[|headers| - 1]
    ensures U32At(AddSizes(buf, headers, pad).value, headers[|headers| - 1]) == U32At(buf, headers[|headers| - 1]) + pad
  {
    var last := headers[|headers| - 1];
    var inner := headers[..|headers| - 1];
    AddSizesFrame(Bumped(buf, headers, pad), inner, pad);
    var r := AddSizes(buf, headers, pad).value;
    forall k | last <= k < last + 4
      ensures r[k] == Bumped(buf, headers, pad)[k]
    {
      assert !InField(inner, k);
    }
  }

  /** Every header grows by `pad`. */
  lemma {:induction false} AddSizesGrow(buf: seq<Byte>, headers: seq<nat>, pad: nat)
    requires forall j :: 0 <= j < |headers| ==> headers[j] + 4 <= |buf|
    requires Apart(headers) && AddSizes(buf, headers, pad).Done?
    ensures forall j :: 0 <= j < |headers| ==>
      U32At(AddSizes(buf, headers, pad).value, headers[j]) == U32At(buf, headers[j]) + pad
    decreases |headers|
  {
    if |headers| > 0 {
      var last := headers[|headers| - 1];
      var inner := headers[..|headers| - 1];
      AddSizesGrow(Bumped(buf, headers, pad), inner, pad);
      GrowLast(buf, headers, pad);
      forall j | 0 <= j < |headers| - 1
        ensures U32At(AddSizes(buf, headers, pad).value, headers[j]) == U32At(buf, headers[j]) + pad
      {
        assert inner[j] == headers[j];
        WithU32AtKeeps(buf, last, U32At(buf, last) + pad, headers[j]);
      }
    }
  }

  /** Headers with room for `pad` do not overflow. */
  lemma {:induction false} AddSizesDone(buf: seq<Byte>, headers: seq<nat>, pad: nat)
    requires forall j :: 0 <= j < |headers| ==> headers[j] + 4 <= |buf|
    requires Apart(headers)
    requires forall j :: 0 <= j < |headers| ==> U32At(buf, headers[j]) + pad < U32_LIMIT
    ensures AddSizes(buf, headers, pad).Done?
    decreases |headers|
  {
    if |headers| > 0 {
      var last := headers[|headers| - 1];
      forall j | 0 <= j < |headers| - 1
        ensures U32At(Bumped(buf, headers, pad), headers[j]) == U32At(buf, headers[j])
      {
        WithU32AtKeeps(buf, last, U32At(buf, last) + pad, headers[j]);
      }
      AddSizesDone(Bumped(buf, headers, pad), headers[..|headers| - 1], pad);
    }
  }

  /** The bytes a write may change below the old position: the open
      headers' size fields. */
  predicate KeepsBelow(s: ForgeState, r: ForgeState)
    requires |r.buf| == |s.buf|
  {
    forall k :: 0 <= k < s.position && k < |s.buf| && !InField(s.open, k) ==> r.buf[k] == s.buf[k]
  }

  /** The buffer once a write of `pad` bytes has grown every open header. */
  function Grown(s: ForgeState, pad: nat): (r: seq<Byte>)
    requires HeadersIn(s) && (|s.open| > 0 ==> AddSizes(s.buf, s.open, pad).Done?)
    ensures |r| == |s.buf|
  {
    if |s.open| == 0 then s.buf else AddSizes(s.buf, s.open, pad).value
  }

  /** A write that does not panic grows the headers, then copies. */
  lemma WriteShape(s: ForgeState, data: seq<Byte>)
    requires HeadersIn(s) && Write(s, data).Done?
    ensures |s.open| > 0 ==> AddSizes(s.buf, s.open, PadSize(|data| % U32_LIMIT).value).Done?
    ensures Write(s, data).value.buf == CopiedAt(Grown(s, PadSize(|data| % U32_LIMIT).value), s.position, data)
  {
  }

  /** A copy at or after `at` leaves a `u32` before `at` alone. */
  lemma CopiedBefore(buf: seq<Byte>, at: nat, data: seq<Byte>, h: nat)
    requires at + |data| <= |buf| && h + 4 <= at
    ensures U32At(CopiedAt(buf, at, data), h) == U32At(buf, h)
  {
    CopiedAtIndex(buf, at, data);
  }

  /** A write keeps the forge's invariant: every open sequence grows by
      the padded size of the data, and so does the write position. */
  lemma WriteKeepsValid(s: ForgeState, data: seq<Byte>)
    requires Valid(s) && Write(s, data).Done?
    ensures Valid(Write(s, data).value)
  {
    var pad := PadSize(|data| % U32_LIMIT).value;
    var r := Write(s, data).value;
    WriteShape(s, data);
    if |s.open| > 0 {
      assert Apart(s.open);
      AddSizesGrow(s.buf, s.open, pad);
    }
    forall j | 0 <= j < |s.open|
      ensures U32At(r.buf, s.open[j]) + ATOM_HEADER_SIZE == r.position - s.open[j]
    {
      CopiedBefore(Grown(s, pad), s.position, data, s.open[j]);
    }
  }

  /** A write puts the data at the old position and changes nothing
      before it but the open headers' sizes. */
  lemma WriteKeepsBelow(s: ForgeState, data: seq<Byte>)
    requires HeadersIn(s) && Write(s, data).Done?
    ensures Write(s, data).value.buf[s.position..s.position + |data|] == data
    ensures KeepsBelow(s, Write(s, data).value)
  {
    var pad := PadSize(|data| % U32_LIMIT).value;
    WriteShape(s, data);
    CopiedAtIndex(Grown(s, pad), s.position, data);
    if |s.open| > 0 {
      AddSizesFrame(s.buf, s.open, pad);
    }
  }

  /** Under the invariant, a write that fits does not panic. */
  lemma WriteDone(s: ForgeState, data: seq<Byte>)
    requires Valid(s) && s.position + |data| <= |s.buf| && |s.buf| + ATOM_HEADER_SIZE <= U32_LIMIT
    ensures Write(s, data).Done?
  {
    if |s.open| > 0 {
      AddSizesDone(s.buf, s.open, PadSize(|data| % U32_LIMIT).value);
    }
  }

  /** Later writes keep what earlier ones kept. */
  lemma KeepsBelowTrans(s: ForgeState, w: ForgeState, r: ForgeState)
    requires |w.buf| == |s.buf| && |r.buf| == |s.buf| && w.open == s.open && s.position <= w.position
    requires KeepsBelow(s, w) && KeepsBelow(w, r)
    ensures KeepsBelow(s, r)
  {
  }

  /** Bytes below the position and past every open header survive a
      write that keeps what is below. */
  lemma KeepsBelowSlice(s: ForgeState, r: ForgeState, at: nat, n: nat)
    requires |r.buf| == |s.buf| && KeepsBelow(s, r)
    requires at + n <= s.position && at + n <= |s.buf|
    requires forall j :: 0 <= j < |s.open| ==> s.open[j] + 4 <= at
    ensures r.buf[at..at + n] == s.buf[at..at + n]
  {
    forall k | at <= k < at + n
      ensures r.buf[k] == s.buf[k]
    {
      assert !InField(s.open, k);
    }
  }

  /** Storing a `u32` past every open header keeps the invariant and
      every byte before it. */
  lemma SetPastHeaders(s: ForgeState, at: nat, x: nat)
    requires Valid(s) && at + 4 <= |s.buf| && x < U32_LIMIT
    requires forall j :: 0 <= j < |s.open| ==> s.open[j] + SEQUENCE_HEADER_SIZE <= at
    ensures Valid(s.(buf := WithU32At(s.buf, at, x)))
    ensures forall k :: 0 <= k < at ==> WithU32At(s.buf, at, x)[k] == s.buf[k]
  {
    WithU32AtOutside(s.buf, at, x);
    forall j | 0 <= j < |s.open|
      ensures U32At(WithU32At(s.buf, at, x), s.open[j]) == U32At(s.buf, s.open[j])
    {
      WithU32AtKeeps(s.buf, at, x, s.open[j]);
    }
  }

  /** `write_atom` keeps the invariant. */
  lemma WriteAtomKeepsValid(s: ForgeState, a: AtomValue, urid: nat)
    requires Valid(s) && WellFormedAtom(a) && urid < U32_LIMIT && WriteAtom(s, a, urid).Done?
    ensures Valid(WriteAtom(s, a, urid).value)
  {
    var w := Write(s, AtomBytes(a)).value;
    WriteKeepsValid(s, AtomBytes(a));
    SetPastHeaders(w, s.position + 4, urid);
  }

  /** `write_atom` changes nothing before the old position but the open
      headers' sizes. */
  lemma WriteAtomKeepsBelow(s: ForgeState, a: AtomValue, urid: nat)
    requires HeadersIn(s) && WellFormedAtom(a) && urid < U32_LIMIT && WriteAtom(s, a, urid).Done?
    ensures KeepsBelow(s, WriteAtom(s, a, urid).value)
  {
    var w := Write(s, AtomBytes(a)).value;
    WriteKeepsBelow(s, AtomBytes(a));
    WithU32AtOutside(w.buf, s.position + 4, urid);
  }

  /** `write_atom` writes the atom's `size + 8` bytes, whose header says
      `size`, and then stores its type URID. */
  lemma WriteAtomHeader(s: ForgeState, a: AtomValue, urid: nat)
    requires HeadersIn(s) && WellFormedAtom(a) && urid < U32_LIMIT && WriteAtom(s, a, urid).Done?
    ensures U32At(WriteAtom(s, a, urid).value.buf, s.position) == |a.body|
    ensures U32At(WriteAtom(s, a, urid).value.buf, s.position + 4) == urid
  {
    var data := AtomBytes(a);
    var w := Write(s, data).value;
    WriteKeepsBelow(s, data);
    assert U32At(w.buf, s.position) == U32At(data, 0) by {
      assert w.buf[s.position..s.position + |data|] == data;
    }
    WithU32AtKeeps(w.buf, s.position + 4, urid, s.position);
  }

  /** Opening a header of size 8 right below the position, past every
      header already open, keeps the invariant. */
  lemma PushHeaderKeepsValid(w: ForgeState, at: nat)
    requires Valid(w) && at + SEQUENCE_HEADER_SIZE == w.position && at + SEQUENCE_HEADER_SIZE <= |w.buf|
    requires forall j :: 0 <= j < |w.open| ==> w.open[j] + SEQUENCE_HEADER_SIZE <= at
    requires U32At(w.buf, at) == ATOM_HEADER_SIZE
    ensures Valid(w.(open := w.open + [at]))
  {
    var r := w.(open := w.open + [at]);
    forall j | 0 <= j < |r.open|
      ensures r.open[j] + SEQUENCE_HEADER_SIZE <= r.position && r.open[j] + SEQUENCE_HEADER_SIZE <= |r.buf|
      ensures U32At(r.buf, r.open[j]) + ATOM_HEADER_SIZE == r.position - r.open[j]
    {
      if j < |w.open| { assert r.open[j] == w.open[j]; } else { assert r.open[j] == at; }
    }
    forall i, j | 0 <= i < j < |r.open|
      ensures r.open[i] + SEQUENCE_HEADER_SIZE <= r.open[j]
    {
      assert r.open[i] == w.open[i];
      if j < |w.open| { assert r.open[j] == w.open[j]; } else { assert r.open[j] == at; }
    }
  }

  /** `ForgeSequence::new` keeps the invariant: the new header says 8 and
      lies past its parents'. */
  lemma BeginSequenceKeepsValid(s: ForgeState, sequenceUrid: nat, unitUrid: nat)
    requires Valid(s) && sequenceUrid < U32_LIMIT && unitUrid < U32_LIMIT
    requires BeginSequence(s, sequenceUrid, unitUrid).Done?
    ensures Valid(BeginSequence(s, sequenceUrid, unitUrid).value)
  {
    var data := SequenceHeader(sequenceUrid, unitUrid);
    var w := Write(s, data).value;
    WriteKeepsValid(s, data);
    WriteKeepsBelow(s, data);
    assert U32At(w.buf, s.position) == U32At(data, 0) by {
      assert w.buf[s.position..s.position + |data|] == data;
    }
    PushHeaderKeepsValid(w, s.position);
  }

  /** `ForgeSequence::new` stores the sequence and unit URIDs. */
  lemma BeginSequenceHeader(s: ForgeState, sequenceUrid: nat, unitUrid: nat)
    requires HeadersIn(s) && sequenceUrid < U32_LIMIT && unitUrid < U32_LIMIT
    requires BeginSequence(s, sequenceUrid, unitUrid).Done?
    ensures U32At(BeginSequence(s, sequenceUrid, unitUrid).value.buf, s.position + 4) == sequenceUrid
    ensures U32At(BeginSequence(s, sequenceUrid, unitUrid).value.buf, s.position + 8) == unitUrid
  {
    var data := SequenceHeader(sequenceUrid, unitUrid);
    var w := Write(s, data).value;
    WriteKeepsBelow(s, data);
    assert w.buf[s.position..s.position + |data|] == data;
    assert U32At(w.buf, s.position + 4) == U32At(data, 4);
    assert U32At(w.buf, s.position + 8) == U32At(data, 8);
  }

  /** `ForgeSequence::new` changes nothing before the old position but
      the open headers' sizes. */
  lemma BeginSequenceKeepsBelow(s: ForgeState, sequenceUrid: nat, unitUrid: nat)
    requires HeadersIn(s) && sequenceUrid < U32_LIMIT && unitUrid < U32_LIMIT
    requires BeginSequence(s, sequenceUrid, unitUrid).Done?
    ensures KeepsBelow(s, BeginSequence(s, sequenceUrid, unitUrid).value)
  {
    WriteKeepsBelow(s, SequenceHeader(sequenceUrid, unitUrid));
  }

  /** Under the invariant an atom that fits is written. */
  lemma WriteAtomDone(s: ForgeState, a: AtomValue, urid: nat)
    requires Valid(s) && WellFormedAtom(a) && urid < U32_LIMIT
    requires s.position + ATOM_HEADER_SIZE + |a.body| <= |s.buf| && |s.buf| + ATOM_HEADER_SIZE <= U32_LIMIT
    ensures WriteAtom(s, a, urid).Done?
  {
    WriteDone(s, AtomBytes(a));
  }

  /** Under the invariant a sequence header that fits is written. */
  lemma BeginSequenceDone(s: ForgeState, sequenceUrid: nat, unitUrid: nat)
    requires Valid(s) && sequenceUrid < U32_LIMIT && unitUrid < U32_LIMIT
    requires s.position + SEQUENCE_HEADER_SIZE <= |s.buf| && |s.buf| + ATOM_HEADER_SIZE <= U32_LIMIT
    ensures BeginSequence(s, sequenceUrid, unitUrid).Done?
  {
    WriteDone(s, SequenceHeader(sequenceUrid, unitUrid));
  }

  /** `write_event` keeps the invariant. */
  lemma WriteEventKeepsValid(s: ForgeState, time: nat, a: AtomValue, urid: nat)
    requires Valid(s) && time < U64_LIMIT && WellFormedAtom(a) && urid < U32_LIMIT
    requires WriteEvent(s, time, a, urid).Done?
    ensures Valid(WriteEvent(s, time, a, urid).value)
  {
    var w := Write(s, U64Bytes(time)).value;
    WriteKeepsValid(s, U64Bytes(time));
    WriteAtomKeepsValid(w, a, urid);
  }

  /** `write_event` changes nothing before the old position but the open
      headers' sizes. */
  lemma WriteEventKeepsBelow(s: ForgeState, time: nat, a: AtomValue, urid: nat)
    requires Valid(s) && time < U64_LIMIT && WellFormedAtom(a) && urid < U32_LIMIT
    requires WriteEvent(s, time, a, urid).Done?
    ensures KeepsBelow(s, WriteEvent(s, time, a, urid).value)
  {
    var stamp := U64Bytes(time);
    var w := Write(s, stamp).value;
    WriteKeepsBelow(s, stamp);
    WriteAtomKeepsBelow(w, a, urid);
    KeepsBelowTrans(s, w, WriteAtom(w, a, urid).value);
  }

  /** `write_event` stores the time stamp at the old position. */
  lemma WriteEventStamp(s: ForgeState, time: nat, a: AtomValue, urid: nat)
    requires HeadersIn(s) && forall j :: 0 <= j < |s.open| ==> s.open[j] + 4 <= s.position
    requires time < U64_LIMIT && WellFormedAtom(a) && urid < U32_LIMIT
    requires WriteEvent(s, time, a, urid).Done?
    ensures WriteEvent(s, time, a, urid).value.buf[s.position..s.position + 8] == U64Bytes(time)
  {
    var stamp := U64Bytes(time);
    var w := Write(s, stamp).value;
    assert WriteEvent(s, time, a, urid) == WriteAtom(w, a, urid);
    var r := WriteAtom(w, a, urid).value;
    WriteKeepsBelow(s, stamp);
    WriteAtomKeepsBelow(w, a, urid);
    KeepsBelowSlice(w, r, s.position, 8);
  }

  /** `ForgeSequence::begin_sequence` keeps the invariant. */
  lemma BeginNestedSequenceKeepsValid(s: ForgeState, time: nat, sequenceUrid: nat, unitUrid: nat)
    requires Valid(s) && time < U64_LIMIT && sequenceUrid < U32_LIMIT && unitUrid < U32_LIMIT
    requires BeginNestedSequence(s, time, sequenceUrid, unitUrid).Done?
    ensures Valid(BeginNestedSequence(s, time, sequenceUrid, unitUrid).value)
  {
    var w := Write(s, U64Bytes(time)).value;
    WriteKeepsValid(s, U64Bytes(time));
    BeginSequenceKeepsValid(w, sequenceUrid, unitUrid);
  }

  /** Under the invariant an event that fits is written. */
  lemma WriteEventDone(s: ForgeState, time: nat, a: AtomValue, urid: nat)
    requires Valid(s) && time < U64_LIMIT && WellFormedAtom(a) && urid < U32_LIMIT
    requires s.position + 8 + ATOM_HEADER_SIZE + |a.body| <= |s.buf| && |s.buf| + ATOM_HEADER_SIZE <= U32_LIMIT
    ensures WriteEvent(s, time, a, urid).Done?
  {
    WriteDone(s, U64Bytes(time));
    WriteKeepsValid(s, U64Bytes(time));
    WriteAtomDone(Write(s, U64Bytes(time)).value, a, urid);
  }

  /** Under the invariant a nested sequence that fits is begun. */
  lemma BeginNestedSequenceDone(s: ForgeState, time: nat, sequenceUrid: nat, unitUrid: nat)
    requires Valid(s) && time < U64_LIMIT && sequenceUrid < U32_LIMIT && unitUrid < U32_LIMIT
    requires s.position + 8 + SEQUENCE_HEADER_SIZE <= |s.buf| && |s.buf| + ATOM_HEADER_SIZE <= U32_LIMIT
    ensures BeginNestedSequence(s, time, sequenceUrid, unitUrid).Done?
  {
    WriteDone(s, U64Bytes(time));
    WriteKeepsValid(s, U64Bytes(time));
    BeginSequenceDone(Write(s, U64Bytes(time)).value, sequenceUrid, unitUrid);
  }

  /** A `u32` below the position and past every open header survives a
      write that keeps what is below. */
  lemma KeepsBelowU32(s: ForgeState, r: ForgeState, at: nat)
    requires |r.buf| == |s.buf| && KeepsBelow(s, r)
    requires at + 4 <= s.position && at + 4 <= |s.buf|
    requires forall j :: 0 <= j < |s.open| ==> s.open[j] + 4 <= at
    ensures U32At(r.buf, at) == U32At(s.buf, at)
  {
    KeepsBelowSlice(s, r, at, 4);
    assert r.buf[at..at + 4][1] == s.buf[at..at + 4][1];
    assert r.buf[at..at + 4][2] == s.buf[at..at + 4][2];
    assert r.buf[at..at + 4][3] == s.buf[at..at + 4][3];
  }

  /** Under the invariant every open header says how far the position
      is past its end. */
  lemma OpenSize(s: ForgeState, j: nat)
    requires Valid(s) && j < |s.open|
    ensures U32At(s.buf, s.open[j]) == s.position - s.open[j] - ATOM_HEADER_SIZE
  {
  }
}
