/** Pitch-line transformations of the sequencer
    (session/src/talkers/tseq/pitch.rs): rotation, backward rotation,
    transposition and inversion of a line of pitches, in place. The
    transition shape of a pitch comes from parser types that are not part
    of this model; it is a type parameter, carried along unchanged. */
module TseqPitch {
  import opened Wrappers
  import opened Numeric
  import opened Seqs
  import opened Scales

  datatype Pitch<S> = Pitch(id: string, transition: S)

  function ShiftError(k: nat): string {
    "Tseq pitchline notes shift count " + FormatNat(k) + " invalide!"
  }

  /** `notes_shift`: the line rotated left by `k`; a count that is not
      below the length is an error and leaves the line as it is. */
  method NotesShift<S>(pitchs: array<Pitch<S>>, k: nat) returns (r: Result<()>)
    modifies pitchs
    ensures r.Err? <==> k >= pitchs.Length
    ensures r.Err? ==> r.msg == ShiftError(k) && pitchs[..] == old(pitchs[..])
    ensures r.Ok? ==> pitchs[..] == RotateLeft(old(pitchs[..]), k)
  {
    if k >= pitchs.Length {
      return Err(ShiftError(k));
    }
    RotateInPlace(pitchs, k);
    r := Ok(());
  }

  /** `backward_notes_shift`: rotated left by `k`, then reversed. */
  method BackwardNotesShift<S>(pitchs: array<Pitch<S>>, k: nat) returns (r: Result<()>)
    modifies pitchs
    ensures r.Err? <==> k >= pitchs.Length
    ensures r.Err? ==> r.msg == ShiftError(k) && pitchs[..] == old(pitchs[..])
    ensures r.Ok? ==> pitchs[..] == Reverse(RotateLeft(old(pitchs[..]), k))
  {
    if k >= pitchs.Length {
      return Err(ShiftError(k));
    }
    RotateInPlace(pitchs, k);
    ReverseInPlace(pitchs);
    r := Ok(());
  }

  /** The slice's `rotate_left`. */
  method RotateInPlace<T>(a: array<T>, k: nat)
    requires k <= a.Length
    modifies a
    ensures a[..] == RotateLeft(old(a[..]), k)
  {
    var s := a[..];
    forall i | 0 <= i < a.Length {
      a[i] := if i + k < a.Length then s[i + k] else s[i + k - a.Length];
    }
  }

  /** The slice's `reverse`. */
  method ReverseInPlace<T>(a: array<T>)
    modifies a
    ensures a[..] == Reverse(old(a[..]))
  {
    var s := a[..];
    forall i | 0 <= i < a.Length {
      a[i] := s[a.Length - 1 - i];
    }
    ReverseIndices(s);
  }

  /** Rotating keeps the pitches, and rotating by the rest of the length
      restores the line. */
  lemma {:induction false} RotateLeftProperties<T>(s: seq<T>, k: nat)
    requires k <= |s|
    ensures multiset(RotateLeft(s, k)) == multiset(s)
    ensures RotateLeft(RotateLeft(s, k), |s| - k) == s
  {
    assert s == s[..k] + s[k..];
    var r := RotateLeft(s, k);
    assert r[|s| - k..] == s[..k];
    assert r[..|s| - k] == s[k..];
  }

  /** A backward shift keeps the pitches. */
  lemma {:induction false} BackwardShiftKeepsPitches<T>(s: seq<T>, k: nat)
    requires k <= |s|
    ensures multiset(Reverse(RotateLeft(s, k))) == multiset(s)
  {
    RotateLeftProperties(s, k);
    ReverseMultiset(RotateLeft(s, k));
  }

  /** A backward shift is the reversed line rotated by the rest of the
      length. */
  lemma {:induction false} BackwardShiftIsRotatedReverse<T>(s: seq<T>, k: nat)
    requires k <= |s|
    ensures Reverse(RotateLeft(s, k)) == RotateLeft(Reverse(s), |s| - k)
  {
    var b := Reverse(RotateLeft(s, k));
    var c := RotateLeft(Reverse(s), |s| - k);
    ReverseIndices(RotateLeft(s, k));
    ReverseIndices(s);
    forall i | 0 <= i < |s|
      ensures b[i] == c[i]
    {
      assert b[i] == RotateLeft(s, k)[|s| - 1 - i];
    }
  }

  // Transposition and inversion go through the two conversions of the
  // scale, `pitch_name_to_number` and `pitch_number_to_name`. The line
  // operations take them as function values, so that they are proved once
  // for any conversions; `NumberOf(s)` and `NameOf(s)` are those of a
  // scale of the `Scales` module.

  type NumberOfName = string -> Run<Result<nat>>
  type NameOfNumber = nat -> Run<string>

  function NumberOf(s: Scale): NumberOfName {
    id => PitchNameToNumber(s, id)
  }

  function NameOf(s: Scale): NameOfNumber {
    (n: nat) => PitchNumberToName(s, n)
  }

  /** Every number that has a name reads back from that name. */
  predicate RoundTrips(number: NumberOfName, name: NameOfNumber) {
    forall n: nat {:trigger name(n)} :: n < USIZE_LIMIT && name(n).Done? ==> number(name(n).value) == Done(Ok(n))
  }

  /** The conversions of a well-formed scale round-trip. */
  lemma {:induction false} ScaleRoundTrips(s: Scale)
    requires WellFormedNames(s.names)
    ensures RoundTrips(NumberOf(s), NameOf(s))
  {
    forall n: nat | n < USIZE_LIMIT && NameOf(s)(n).Done?
      ensures NumberOf(s)(NameOf(s)(n).value) == Done(Ok(n))
    {
      NumberNameRoundTrip(s, n);
    }
  }

  /** `x as i64`: the low 64 bits in two's complement. */
  function UsizeAsI64(x: nat): (r: int)
    ensures I64_MIN <= r <= I64_MAX
    ensures x <= I64_MAX ==> r == x
  {
    var w := x % USIZE_LIMIT;
    if w <= I64_MAX then w else w - USIZE_LIMIT
  }

  /** `x as usize` for an `i64`: a negative value wraps. */
  function I64AsUsize(x: int): (r: nat)
    requires I64_MIN <= x <= I64_MAX
    ensures r < USIZE_LIMIT
    ensures x >= 0 ==> r == x
  {
    if x >= 0 then x else x + USIZE_LIMIT
  }

  /** `fin - init` of the two pitches' `i64` numbers; the subtraction
      panics on overflow. */
  function Shift(init: nat, fin: nat): (r: Run<int>)
    ensures r.Done? ==> I64_MIN <= r.value <= I64_MAX
    ensures init <= I64_MAX && fin <= I64_MAX ==> r == Done(fin - init)
  {
    var d := UsizeAsI64(fin) - UsizeAsI64(init);
    if I64_MIN <= d <= I64_MAX then Done(d) else Panic("attempt to subtract with overflow")
  }

  /** `(n as i64 + dn) as usize`; the addition panics on overflow. */
  function MoveNumber(n: nat, dn: int): (r: Run<nat>)
    requires I64_MIN <= dn <= I64_MAX
    ensures r.Done? ==> r.value < USIZE_LIMIT
    ensures n <= I64_MAX && 0 <= n + dn <= I64_MAX ==> r == Done(n + dn)
  {
    var sum := UsizeAsI64(n) + dn;
    if I64_MIN <= sum <= I64_MAX then Done(I64AsUsize(sum)) else Panic("attempt to add with overflow")
  }

  /** The new name of one pitch in `pitchs_transposition`: its number
      moved by `dn`, named again; `?` on the lookup. */
  function TransposeId(number: NumberOfName, name: NameOfNumber, id: string, dn: int): Run<Result<string>>
    requires I64_MIN <= dn <= I64_MAX
  {
    match number(id)
    case Panic(why) => Panic(why)
    case Done(Err(e)) => Done(Err(e))
    case Done(Ok(n)) =>
      match MoveNumber(n, dn)
      case Panic(why) => Panic(why)
      case Done(m) =>
        match name(m)
        case Panic(why) => Panic(why)
        case Done(nm) => Done(Ok(nm))
  }

  /** `TransposeId` renames pitch number `n` after `n + dn` when both fit an
      `i64` and `n + dn` is not negative. */
  lemma {:induction false} TransposeIdOfNumber(number: NumberOfName, name: NameOfNumber, id: string, n: nat, dn: int)
    requires number(id) == Done(Ok(n))
    requires n <= I64_MAX && I64_MIN <= dn <= I64_MAX && 0 <= n + dn <= I64_MAX
    ensures name(n + dn).Done? ==> TransposeId(number, name, id, dn) == Done(Ok(name(n + dn).value))
    ensures name(n + dn).Panic? ==> TransposeId(number, name, id, dn) == Panic(name(n + dn).reason)
  {
    assert MoveNumber(n, dn) == Done(n + dn);
  }

  /** For round-tripping conversions, transposing the name of `n` gives
      the name of `n + dn`, and transposing that by `-dn` gives the name of
      `n` back. */
  lemma {:induction false} TransposeBack(number: NumberOfName, name: NameOfNumber, n: nat, dn: int)
    requires RoundTrips(number, name)
    requires n <= I64_MAX && I64_MIN < dn <= I64_MAX && 0 <= n + dn <= I64_MAX
    requires name(n).Done? && name(n + dn).Done?
    ensures TransposeId(number, name, name(n).value, dn) == Done(Ok(name(n + dn).value))
    ensures TransposeId(number, name, name(n + dn).value, -dn) == Done(Ok(name(n).value))
  {
    var m := n + dn;
    assert number(name(n).value) == Done(Ok(n));
    assert number(name(m).value) == Done(Ok(m));
    TransposeIdOfNumber(number, name, name(n).value, n, dn);
    TransposeIdOfNumber(number, name, name(m).value, m, -dn);
    assert m + -dn == n;
  }

  /** In a well-formed scale, pitch `n` from the first octave on is
      transposed by `dn` to the name of `n + dn`, and back. */
  lemma {:induction false} ScaleTransposeBack(s: Scale, n: nat, dn: int)
    requires WellFormedNames(s.names)
    requires |s.names| <= n <= I64_MAX && I64_MIN < dn <= I64_MAX && |s.names| <= n + dn <= I64_MAX
    ensures NameOf(s)(n).Done? && NameOf(s)(n + dn).Done?
    ensures TransposeId(NumberOf(s), NameOf(s), NameOf(s)(n).value, dn) == Done(Ok(NameOf(s)(n + dn).value))
    ensures TransposeId(NumberOf(s), NameOf(s), NameOf(s)(n + dn).value, -dn) == Done(Ok(NameOf(s)(n).value))
  {
    ScaleRoundTrips(s);
    assert PitchNumberToName(s, n).Done? && PitchNumberToName(s, n + dn).Done?;
    TransposeBack(NumberOf(s), NameOf(s), n, dn);
  }

  /** The first position whose transposition does not give a name (or the
      length when all do). */
  function FirstFailure<S>(number: NumberOfName, name: NameOfNumber, ps: seq<Pitch<S>>, dn: int, from: nat): (r: nat)
    requires I64_MIN <= dn <= I64_MAX && from <= |ps|
    ensures from <= r <= |ps|
    ensures forall i :: from <= i < r ==>
      TransposeId(number, name, ps[i].id, dn).Done? && TransposeId(number, name, ps[i].id, dn).value.Ok?
    ensures r < |ps| ==>
      !(TransposeId(number, name, ps[r].id, dn).Done? && TransposeId(number, name, ps[r].id, dn).value.Ok?)
    decreases |ps| - from
  {
    if from == |ps| then from
    else
      var t := TransposeId(number, name, ps[from].id, dn);
      if t.Done? && t.value.Ok? then FirstFailure(number, name, ps, dn, from + 1) else from
  }

  /** The line with its first `k` pitches renamed by the transposition,
      transitions kept. */
  function TransposedPrefix<S>(number: NumberOfName, name: NameOfNumber, ps: seq<Pitch<S>>, dn: int, k: nat): (r: seq<Pitch<S>>)
    requires I64_MIN <= dn <= I64_MAX && k <= FirstFailure(number, name, ps, dn, 0)
    ensures |r| == |ps|
    ensures forall i :: 0 <= i < k ==> r[i] == Pitch(TransposeId(number, name, ps[i].id, dn).value.value, ps[i].transition)
    ensures forall i :: k <= i < |ps| ==> r[i] == ps[i]
  {
    seq(|ps|, i requires 0 <= i < |ps| =>
      if i < k then Pitch(TransposeId(number, name, ps[i].id, dn).value.value, ps[i].transition) else ps[i])
  }

  /** The loop of `pitchs_transposition` as a function of the line: its
      outcome and the line it leaves, or a panic. */
  function TransposeAll<S>(number: NumberOfName, name: NameOfNumber, ps: seq<Pitch<S>>, dn: int): (r: Run<(Result<()>, seq<Pitch<S>>)>)
    requires I64_MIN <= dn <= I64_MAX
    ensures r.Done? ==> r.value.1 == TransposedPrefix(number, name, ps, dn, FirstFailure(number, name, ps, dn, 0))
    ensures r.Done? ==> (r.value.0.Ok? <==> FirstFailure(number, name, ps, dn, 0) == |ps|)
  {
    var k := FirstFailure(number, name, ps, dn, 0);
    if k == |ps| then Done((Ok(()), TransposedPrefix(number, name, ps, dn, k)))
    else
      var t := TransposeId(number, name, ps[k].id, dn);
      if t.Panic? then Panic(t.reason)
      else Done((Err(t.value.msg), TransposedPrefix(number, name, ps, dn, k)))
  }

  /** `pitchs_transposition` as a function of the line. */
  function Transposition<S>(number: NumberOfName, name: NameOfNumber, ps: seq<Pitch<S>>, initial: string, fin: string): (r: Run<(Result<()>, seq<Pitch<S>>)>)
  {
    var i := number(initial);
    var f := number(fin);
    if i.Panic? then Panic(i.reason)
    else if i.value.Err? then Done((Err(i.value.msg), ps))
    else if f.Panic? then Panic(f.reason)
    else if f.value.Err? then Done((Err(f.value.msg), ps))
    else
      var shift := Shift(i.value.value, f.value.value);
      if shift.Panic? then Panic(shift.reason)
      else TransposeAll(number, name, ps, shift.value)
  }

  /** `pitchs_transposition`: every pitch moved by the number of steps from
      `initial` to `fin` and renamed in the scale, its transition kept. An
      unknown initial or final pitch is an error before any change; an
      unknown pitch of the line stops the loop with an error, leaving the
      pitches before it transposed and the rest as they were. The state
      after a panic is not described, as the thread unwinds. */
  method PitchsTransposition<S>(pitchs: array<Pitch<S>>, number: NumberOfName, name: NameOfNumber, initial: string, fin: string)
    returns (r: Run<Result<()>>)
    modifies pitchs
    ensures r.Done? <==> Transposition(number, name, old(pitchs[..]), initial, fin).Done?
    ensures r.Done? ==> (r.value == Transposition(number, name, old(pitchs[..]), initial, fin).value.0
      && pitchs[..] == Transposition(number, name, old(pitchs[..]), initial, fin).value.1)
  {
    var initNum := number(initial);
    if initNum.Panic? {
      return Panic(initNum.reason);
    }
    if initNum.value.Err? {
      return Done(Err(initNum.value.msg));
    }
    var finNum := number(fin);
    if finNum.Panic? {
      return Panic(finNum.reason);
    }
    if finNum.value.Err? {
      return Done(Err(finNum.value.msg));
    }
    var shift := Shift(initNum.value.value, finNum.value.value);
    if shift.Panic? {
      return Panic(shift.reason);
    }
    r := TransposeLoop(pitchs, number, name, shift.value);
  }

  /** The loop of `pitchs_transposition`, against `TransposeAll`. */
  method TransposeLoop<S>(pitchs: array<Pitch<S>>, number: NumberOfName, name: NameOfNumber, dn: int)
    returns (r: Run<Result<()>>)
    requires I64_MIN <= dn <= I64_MAX
    modifies pitchs
    ensures r.Done? <==> TransposeAll(number, name, old(pitchs[..]), dn).Done?
    ensures r.Done? ==> (r.value == TransposeAll(number, name, old(pitchs[..]), dn).value.0
      && pitchs[..] == TransposeAll(number, name, old(pitchs[..]), dn).value.1)
  {
    ghost var ps := pitchs[..];
    var i := 0;
    while i < pitchs.Length
      invariant i <= FirstFailure(number, name, ps, dn, 0)
      invariant pitchs[..] == TransposedPrefix(number, name, ps, dn, i)
    {
      var t := TransposeId(number, name, pitchs[i].id, dn);
      if t.Panic? {
        return Panic(t.reason);
      }
      if t.value.Err? {
        return Done(Err(t.value.msg));
      }
      pitchs[i] := Pitch(t.value.value, pitchs[i].transition);
      i := i + 1;
    }
    r := Done(Ok(()));
  }

  /** `pre` in front of a list of numbers; a failure stays as it is. */
  function PrependNumbers(pre: seq<nat>, r: Run<Result<seq<nat>>>): Run<Result<seq<nat>>> {
    if r.Done? && r.value.Ok? then Done(Ok(pre + r.value.value)) else r
  }

  lemma {:induction false} PrependNoNumbers(r: Run<Result<seq<nat>>>)
    ensures PrependNumbers([], r) == r
  {
    if r.Done? && r.value.Ok? {
      assert [] + r.value.value == r.value.value;
    }
  }

  lemma {:induction false} PrependNumbersTwice(a: seq<nat>, b: seq<nat>, r: Run<Result<seq<nat>>>)
    ensures PrependNumbers(a, PrependNumbers(b, r)) == PrependNumbers(a + b, r)
  {
    if r.Done? && r.value.Ok? {
      assert a + (b + r.value.value) == (a + b) + r.value.value;
    }
  }

  /** The numbers of the line's pitches, in order; the first pitch that is
      not found stops with its error or panic. */
  function Numbers<S>(number: NumberOfName, ps: seq<Pitch<S>>): (r: Run<Result<seq<nat>>>)
    ensures r.Done? && r.value.Ok? ==> |r.value.value| == |ps|
  {
    if |ps| == 0 then Done(Ok([]))
    else
      var n := number(ps[0].id);
      if n.Panic? then Panic(n.reason)
      else if n.value.Err? then Done(Err(n.value.msg))
      else PrependNumbers([n.value.value], Numbers(number, ps[1..]))
  }

  /** The list of numbers holds the number of each pitch. */
  lemma {:induction false} NumbersOfLine<S>(number: NumberOfName, ps: seq<Pitch<S>>)
    requires Numbers(number, ps).Done? && Numbers(number, ps).value.Ok?
    ensures forall i :: 0 <= i < |ps| ==> number(ps[i].id) == Done(Ok(Numbers(number, ps).value.value[i]))
  {
    if |ps| > 0 {
      NumbersOfLine(number, ps[1..]);
      forall i | 0 < i < |ps|
        ensures number(ps[i].id) == Done(Ok(Numbers(number, ps).value.value[i]))
      {
        assert ps[1..][i - 1] == ps[i];
      }
    }
  }

  /** The `min` fold from `usize::MAX` and the `max` fold from 0. */
  function SeqMin(ns: seq<nat>): (r: nat)
    ensures r <= USIZE_LIMIT - 1
    ensures forall i :: 0 <= i < |ns| ==> r <= ns[i]
    ensures |ns| > 0 && (forall i :: 0 <= i < |ns| ==> ns[i] < USIZE_LIMIT) ==> r in ns
  {
    if |ns| == 0 then USIZE_LIMIT - 1 else Min(SeqMin(ns[..|ns| - 1]), ns[|ns| - 1])
  }

  function SeqMax(ns: seq<nat>): (r: nat)
    ensures forall i :: 0 <= i < |ns| ==> ns[i] <= r
    ensures |ns| > 0 ==> r in ns
  {
    if |ns| == 0 then 0 else Max(SeqMax(ns[..|ns| - 1]), ns[|ns| - 1])
  }

  /** `pre` in front of a list of names; a panic stays as it is. */
  function PrependNames(pre: seq<string>, r: Run<seq<string>>): Run<seq<string>> {
    if r.Done? then Done(pre + r.value) else r
  }

  lemma {:induction false} PrependNoNames(r: Run<seq<string>>)
    ensures PrependNames([], r) == r
  {
    if r.Done? {
      assert [] + r.value == r.value;
    }
  }

  lemma {:induction false} PrependNamesTwice(a: seq<string>, b: seq<string>, r: Run<seq<string>>)
    ensures PrependNames(a, PrependNames(b, r)) == PrependNames(a + b, r)
  {
    if r.Done? {
      assert a + (b + r.value) == (a + b) + r.value;
    }
  }

  /** The names of `total - n` for the numbers of the line, in order; the
      first that cannot be named panics. */
  function InvertedNames(name: NameOfNumber, ns: seq<nat>, total: nat): (r: Run<seq<string>>)
    requires forall i :: 0 <= i < |ns| ==> ns[i] <= total
    ensures r.Done? ==> |r.value| == |ns|
  {
    if |ns| == 0 then Done([])
    else
      var nm := name(total - ns[0]);
      if nm.Panic? then Panic(nm.reason)
      else PrependNames([nm.value], InvertedNames(name, ns[1..], total))
  }

  /** The names hold the name of each `total - n`. */
  lemma {:induction false} InvertedNamesAt(name: NameOfNumber, ns: seq<nat>, total: nat)
    requires forall i :: 0 <= i < |ns| ==> ns[i] <= total
    requires InvertedNames(name, ns, total).Done?
    ensures forall i :: 0 <= i < |ns| ==> name(total - ns[i]) == Done(InvertedNames(name, ns, total).value[i])
  {
    if |ns| > 0 {
      InvertedNamesAt(name, ns[1..], total);
      forall i | 0 < i < |ns|
        ensures name(total - ns[i]) == Done(InvertedNames(name, ns, total).value[i])
      {
        assert ns[1..][i - 1] == ns[i];
      }
    }
  }

  /** The line with new ids, transitions kept. */
  function Renamed<S>(ps: seq<Pitch<S>>, ids: seq<string>): (r: seq<Pitch<S>>)
    requires |ids| == |ps|
    ensures |r| == |ps| && forall i :: 0 <= i < |ps| ==> r[i] == Pitch(ids[i], ps[i].transition)
  {
    seq(|ps|, i requires 0 <= i < |ps| => Pitch(ids[i], ps[i].transition))
  }

  /** `pitchs_inversion` as a function of the line: every number `n`
      becomes `min + max - n` over the line's numbers. An unknown pitch is
      an error before any change; `min + max` past the `usize` range and
      a number that cannot be named panic. */
  function Inversion<S>(number: NumberOfName, name: NameOfNumber, ps: seq<Pitch<S>>): (r: Run<(Result<()>, seq<Pitch<S>>)>)
    ensures r.Done? && r.value.0.Ok? ==> (|r.value.1| == |ps|
      && forall i :: 0 <= i < |ps| ==> r.value.1[i].transition == ps[i].transition)
  {
    InversionOfNumbers(name, ps, Numbers(number, ps))
  }

  /** The inversion once the numbers of the line are looked up. */
  function InversionOfNumbers<S>(name: NameOfNumber, ps: seq<Pitch<S>>, nums: Run<Result<seq<nat>>>): (r: Run<(Result<()>, seq<Pitch<S>>)>)
    requires nums.Done? && nums.value.Ok? ==> |nums.value.value| == |ps|
    ensures r.Done? && r.value.0.Ok? ==> (|r.value.1| == |ps|
      && forall i :: 0 <= i < |ps| ==> r.value.1[i].transition == ps[i].transition)
  {
    if nums.Panic? then Panic(nums.reason)
    else if nums.value.Err? then Done((Err(nums.value.msg), ps))
    else
      var ns := nums.value.value;
      InversionWithin(name, ps, ns, SeqMin(ns) + SeqMax(ns))
  }

  /** The inversion about `total`, the sum of the line's bounds. */
  function InversionWithin<S>(name: NameOfNumber, ps: seq<Pitch<S>>, ns: seq<nat>, total: nat): (r: Run<(Result<()>, seq<Pitch<S>>)>)
    requires |ns| == |ps| && forall i :: 0 <= i < |ns| ==> ns[i] <= total
    ensures r.Done? ==> (r.value.0.Ok? && |r.value.1| == |ps|
      && forall i :: 0 <= i < |ps| ==> r.value.1[i].transition == ps[i].transition)
  {
    if total >= USIZE_LIMIT then Panic("attempt to add with overflow")
    else
      var names := InvertedNames(name, ns, total);
      if names.Panic? then Panic(names.reason)
      else Done((Ok(()), Renamed(ps, names.value)))
  }

  /** `pitchs_inversion`. */
  method PitchsInversion<S>(pitchs: array<Pitch<S>>, number: NumberOfName, name: NameOfNumber) returns (r: Run<Result<()>>)
    modifies pitchs
    ensures r.Done? <==> Inversion(number, name, old(pitchs[..])).Done?
    ensures r.Done? ==> (r.value == Inversion(number, name, old(pitchs[..])).value.0
      && pitchs[..] == Inversion(number, name, old(pitchs[..])).value.1)
  {
    ghost var ps := pitchs[..];
    var nums, nMin, nMax := CollectNumbers(pitchs, number);
    assert Inversion(number, name, ps) == InversionOfNumbers(name, ps, nums);
    if nums.Panic? {
      return Panic(nums.reason);
    }
    if nums.value.Err? {
      return Done(Err(nums.value.msg));
    }
    var ns := nums.value.value;
    if nMin + nMax >= USIZE_LIMIT {
      return Panic("attempt to add with overflow");
    }
    var total := nMin + nMax;
    assert Inversion(number, name, ps) == InversionWithin(name, ps, ns, total);
    var names := RenameInverted(pitchs, name, ns, total);
    if names.Panic? {
      return Panic(names.reason);
    }
    assert InversionWithin(name, ps, ns, total) == Done((Ok(()), Renamed(ps, names.value)));
    r := Done(Ok(()));
  }

  /** The first loop of `pitchs_inversion`: the numbers of the line and
      their minimum and maximum, with `?` on each lookup. */
  method CollectNumbers<S>(pitchs: array<Pitch<S>>, number: NumberOfName)
    returns (r: Run<Result<seq<nat>>>, nMin: nat, nMax: nat)
    ensures r == Numbers(number, pitchs[..])
    ensures r.Done? && r.value.Ok? ==> nMin == SeqMin(r.value.value) && nMax == SeqMax(r.value.value)
  {
    var nums: seq<nat> := [];
    nMin := USIZE_LIMIT - 1;
    nMax := 0;
    assert pitchs[0..] == pitchs[..];
    PrependNoNumbers(Numbers(number, pitchs[..]));
    for i := 0 to pitchs.Length
      invariant Numbers(number, pitchs[..]) == PrependNumbers(nums, Numbers(number, pitchs[i..]))
      invariant nMin == SeqMin(nums) && nMax == SeqMax(nums)
    {
      assert pitchs[i..][1..] == pitchs[i + 1..];
      var n := number(pitchs[i].id);
      if n.Panic? {
        return Panic(n.reason), nMin, nMax;
      }
      if n.value.Err? {
        return Done(Err(n.value.msg)), nMin, nMax;
      }
      PrependNumbersTwice(nums, [n.value.value], Numbers(number, pitchs[i + 1..]));
      nMin := Min(nMin, n.value.value);
      nMax := Max(nMax, n.value.value);
      assert (nums + [n.value.value])[..|nums|] == nums;
      nums := nums + [n.value.value];
    }
    assert pitchs[pitchs.Length..] == [];
    assert nums + [] == nums;
    r := Done(Ok(nums));
  }

  /** The second loop of `pitchs_inversion`: every pitch renamed after
      `total - n`, transitions kept. */
  method RenameInverted<S>(pitchs: array<Pitch<S>>, name: NameOfNumber, ns: seq<nat>, total: nat) returns (r: Run<seq<string>>)
    requires |ns| == pitchs.Length && forall i :: 0 <= i < |ns| ==> ns[i] <= total
    modifies pitchs
    ensures r == InvertedNames(name, ns, total)
    ensures r.Done? ==> pitchs[..] == Renamed(old(pitchs[..]), r.value)
  {
    ghost var ps := pitchs[..];
    var names: seq<string> := [];
    assert ns[0..] == ns;
    PrependNoNames(InvertedNames(name, ns, total));
    for i := 0 to pitchs.Length
      invariant |names| == i
      invariant InvertedNames(name, ns, total) == PrependNames(names, InvertedNames(name, ns[i..], total))
      invariant forall j :: 0 <= j < i ==> pitchs[j] == Pitch(names[j], ps[j].transition)
      invariant forall j :: i <= j < pitchs.Length ==> pitchs[j] == ps[j]
    {
      assert ns[i..][1..] == ns[i + 1..];
      var nm := name(total - ns[i]);
      if nm.Panic? {
        return Panic(nm.reason);
      }
      PrependNamesTwice(names, [nm.value], InvertedNames(name, ns[i + 1..], total));
      pitchs[i] := Pitch(nm.value, pitchs[i].transition);
      names := names + [nm.value];
    }
    assert ns[|ns|..] == [];
    assert names + [] == names;
    assert pitchs[..] == Renamed(ps, names);
    r := Done(names);
  }

  /** A lower bound that is one of the numbers is the minimum. */
  lemma {:induction false} SeqMinIs(ns: seq<nat>, a: nat)
    requires a < |ns| && forall i :: 0 <= i < |ns| ==> ns[a] <= ns[i] && ns[i] < USIZE_LIMIT
    ensures SeqMin(ns) == ns[a]
  {
  }

  /** An upper bound that is one of the numbers is the maximum. */
  lemma {:induction false} SeqMaxIs(ns: seq<nat>, b: nat)
    requires b < |ns| && forall i :: 0 <= i < |ns| ==> ns[i] <= ns[b]
    ensures SeqMax(ns) == ns[b]
  {
  }

  /** `total - n` for every number of the line. */
  function Complement(ns: seq<nat>, total: nat): (r: seq<nat>)
    requires forall i :: 0 <= i < |ns| ==> ns[i] <= total
    ensures |r| == |ns| && forall i :: 0 <= i < |ns| ==> r[i] == total - ns[i]
  {
    seq(|ns|, i requires 0 <= i < |ns| => total - ns[i])
  }

  /** `min + max - n` for every number of the line. */
  function Inverted(ns: seq<nat>): (r: seq<nat>)
    ensures |r| == |ns| && forall i :: 0 <= i < |ns| ==> r[i] == SeqMin(ns) + SeqMax(ns) - ns[i]
  {
    Complement(ns, SeqMin(ns) + SeqMax(ns))
  }

  /** Inverting a non-empty list of numbers keeps its minimum and maximum. */
  lemma {:induction false} InvertedBounds(ns: seq<nat>)
    requires |ns| > 0 && forall i :: 0 <= i < |ns| ==> ns[i] < USIZE_LIMIT
    ensures SeqMin(Inverted(ns)) == SeqMin(ns) && SeqMax(Inverted(ns)) == SeqMax(ns)
  {
    var inv := Inverted(ns);
    var a :| 0 <= a < |ns| && ns[a] == SeqMin(ns);
    var b :| 0 <= b < |ns| && ns[b] == SeqMax(ns);
    SeqMinIs(inv, b);
    SeqMaxIs(inv, a);
  }

  /** Inverting twice gives the numbers back. */
  lemma {:induction false} InvertTwice(ns: seq<nat>)
    requires |ns| > 0 && forall i :: 0 <= i < |ns| ==> ns[i] < USIZE_LIMIT
    ensures SeqMin(Inverted(ns)) == SeqMin(ns) && SeqMax(Inverted(ns)) == SeqMax(ns)
    ensures forall i :: 0 <= i < |ns| ==> Inverted(ns)[i] < USIZE_LIMIT
    ensures Inverted(Inverted(ns)) == ns
  {
    InvertedBounds(ns);
    var inv := Inverted(ns);
    assert forall i :: 0 <= i < |ns| ==> Inverted(inv)[i] == ns[i];
  }

  /** A line whose pitches have the numbers `ms` has the list of numbers `ms`. */
  lemma {:induction false} NumbersOfNumberedLine<S>(number: NumberOfName, ps: seq<Pitch<S>>, ms: seq<nat>)
    requires |ms| == |ps| && forall i :: 0 <= i < |ps| ==> number(ps[i].id) == Done(Ok(ms[i]))
    ensures Numbers(number, ps) == Done(Ok(ms))
  {
    if |ps| > 0 {
      forall i | 0 <= i < |ps| - 1
        ensures number(ps[1..][i].id) == Done(Ok(ms[1..][i]))
      {
        assert ps[1..][i] == ps[i + 1];
      }
      NumbersOfNumberedLine(number, ps[1..], ms[1..]);
      assert [ms[0]] + ms[1..] == ms;
    }
  }

  /** With round-tripping conversions, a line renamed after `total - n`
      has the numbers `total - n`. */
  lemma {:induction false} RenamedNumbers<S>(number: NumberOfName, name: NameOfNumber, ps: seq<Pitch<S>>, ns: seq<nat>, names: seq<string>, total: nat)
    requires RoundTrips(number, name) && total < USIZE_LIMIT
    requires |ns| == |ps| && |names| == |ps|
    requires forall i :: 0 <= i < |ns| ==> ns[i] <= total && name(total - ns[i]) == Done(names[i])
    ensures Numbers(number, Renamed(ps, names)) == Done(Ok(Complement(ns, total)))
  {
    var qs := Renamed(ps, names);
    forall i | 0 <= i < |ps|
      ensures number(qs[i].id) == Done(Ok(Complement(ns, total)[i]))
    {
      assert name(total - ns[i]) == Done(names[i]);
    }
    NumbersOfNumberedLine(number, qs, Complement(ns, total));
  }

  /** With round-tripping conversions, the inverted line has the numbers
      `min + max - n` of the line's numbers `n`. */
  lemma {:induction false} InversionNumbers<S>(number: NumberOfName, name: NameOfNumber, ps: seq<Pitch<S>>)
    requires RoundTrips(number, name)
    requires Inversion(number, name, ps).Done? && Inversion(number, name, ps).value.0.Ok?
    ensures Numbers(number, ps).Done? && Numbers(number, ps).value.Ok?
    ensures forall i :: 0 <= i < |Numbers(number, ps).value.value| ==> Numbers(number, ps).value.value[i] < USIZE_LIMIT
    ensures Numbers(number, Inversion(number, name, ps).value.1) == Done(Ok(Inverted(Numbers(number, ps).value.value)))
  {
    var ns := Numbers(number, ps).value.value;
    var total := SeqMin(ns) + SeqMax(ns);
    assert total < USIZE_LIMIT;
    var names := InvertedNames(name, ns, total).value;
    InvertedNamesAt(name, ns, total);
    assert Inversion(number, name, ps).value.1 == Renamed(ps, names);
    RenamedNumbers(number, name, ps, ns, names, total);
  }

  /** Inverting a line twice gives back its numbers. */
  lemma {:induction false} InversionTwice<S>(number: NumberOfName, name: NameOfNumber, ps: seq<Pitch<S>>)
    requires RoundTrips(number, name) && |ps| > 0
    requires Inversion(number, name, ps).Done? && Inversion(number, name, ps).value.0.Ok?
    requires var qs := Inversion(number, name, ps).value.1;
      Inversion(number, name, qs).Done? && Inversion(number, name, qs).value.0.Ok?
    ensures Numbers(number, Inversion(number, name, Inversion(number, name, ps).value.1).value.1) == Numbers(number, ps)
  {
    var qs := Inversion(number, name, ps).value.1;
    InversionNumbers(number, name, ps);
    InversionNumbers(number, name, qs);
    InvertTwice(Numbers(number, ps).value.value);
  }

  /** With round-tripping conversions, a transposition that succeeds
      moves the number of every pitch by `dn`, in `i64` arithmetic. */
  lemma {:induction false} TranspositionNumbers<S>(number: NumberOfName, name: NameOfNumber, ps: seq<Pitch<S>>, dn: int)
    requires RoundTrips(number, name) && I64_MIN <= dn <= I64_MAX
    requires TransposeAll(number, name, ps, dn).Done? && TransposeAll(number, name, ps, dn).value.0.Ok?
    ensures forall i :: 0 <= i < |ps| ==> (
      var n := number(ps[i].id);
      n.Done? && n.value.Ok? && MoveNumber(n.value.value, dn).Done?
      && number(TransposeAll(number, name, ps, dn).value.1[i].id) == Done(Ok(MoveNumber(n.value.value, dn).value)))
  {
    var qs := TransposeAll(number, name, ps, dn).value.1;
    forall i | 0 <= i < |ps|
      ensures var n := number(ps[i].id);
        n.Done? && n.value.Ok? && MoveNumber(n.value.value, dn).Done?
        && number(qs[i].id) == Done(Ok(MoveNumber(n.value.value, dn).value))
    {
      var t := TransposeId(number, name, ps[i].id, dn);
      assert t.Done? && t.value.Ok? && qs[i].id == t.value.value;
      var m := MoveNumber(number(ps[i].id).value.value, dn).value;
      assert name(m) == Done(t.value.value);
    }
  }
}
