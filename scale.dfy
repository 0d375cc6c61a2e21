/** Pitch names and numbers of the tuning scales (scale/src/scale.rs). A
    pitch is a name of the scale followed by an octave, numbered like MIDI
    notes: octave 0 starts at the scale's length. The frequency ratios and
    the base frequency are floating-point and are not modelled, so a scale
    here is its name and the names of its pitches, in order (which is all
    `get_pitchs_names` returns). */
module Scales {
  import opened Wrappers
  import opened Numeric
  import opened Seqs

  const DEFAULT: string := "12ET"

  datatype Scale = Scale(name: string, names: seq<string>)

  /** `rfind` of a character that is not an ASCII digit. */
  function LastNonDigit(s: string): (r: Option<nat>)
    ensures r.None? <==> AllDigits(s)
    ensures r.Some? ==> r.value < |s| && !IsDigit(s[r.value]) && AllDigits(s[r.value + 1..])
  {
    if |s| == 0 then None
    else if !IsDigit(s[|s| - 1]) then Some(|s| - 1)
    else
      var r := LastNonDigit(s[..|s| - 1]);
      assert r.Some? ==> s[r.value + 1..] == s[..|s| - 1][r.value + 1..] + [s[|s| - 1]];
      r
  }

  /** The number of the pitch at `idx` in octave `octave`. */
  function PitchNumber(len: nat, octave: nat, idx: nat): nat {
    len * (octave + 1) + idx
  }

  function PitchNotFound(pitch: string): string { "Tseq pitch " + pitch + " not found!" }

  /** `pitch_name_to_number`. An all-digit text is the number itself (and
      the `unwrap` panics when it is empty or too large). A text that reads
      as a float is an error. Otherwise the text is cut after its last
      non-digit into a name and an octave: the number is
      `len * (octave + 1) + index`, and an unknown name or an octave that
      is not a `usize` is an error. Cutting after a multi-byte character
      panics, and so does a number past the `usize` range. */
  function PitchNameToNumber(s: Scale, pitch: string): (r: Run<Result<nat>>)
    ensures r.Done? && r.value.Ok? ==> r.value.value < USIZE_LIMIT
    ensures AllDigits(pitch) ==> (r.Done? <==> ParseUsize(pitch).Some?)
    ensures AllDigits(pitch) && r.Done? ==> r.value == Ok(ParseUsize(pitch).value)
    ensures !AllDigits(pitch) && IsF32Literal(pitch) ==>
      r == Done(Err("Tseq pitch frequency " + pitch + " has not number!"))
    ensures r.Done? && r.value.Ok? && LastNonDigit(pitch).Some? ==>
      var p := LastNonDigit(pitch).value;
      var idx := FirstIndexOf(s.names, pitch[..p + 1]);
      var octave := ParseUsize(pitch[p + 1..]);
      idx.Some? && octave.Some? && r.value.value == PitchNumber(|s.names|, octave.value, idx.value)
  {
    var lp := LastNonDigit(pitch);
    if lp.None? then
      var n := ParseUsize(pitch);
      if n.Some? then Done(Ok(n.value)) else Panic("called `Result::unwrap()` on an `Err` value")
    else if IsF32Literal(pitch) then
      Done(Err("Tseq pitch frequency " + pitch + " has not number!"))
    else ReadNameOctave(s, pitch, lp.value)
  }

  /** The name-and-octave branch of `pitch_name_to_number`, for a text cut
      after position `p`. */
  function ReadNameOctave(s: Scale, pitch: string, p: nat): (r: Run<Result<nat>>)
    requires p < |pitch|
    ensures r.Done? && r.value.Ok? ==> r.value.value < USIZE_LIMIT
    ensures r.Done? && r.value.Ok? ==>
      var idx := FirstIndexOf(s.names, pitch[..p + 1]);
      var octave := ParseUsize(pitch[p + 1..]);
      idx.Some? && octave.Some? && r.value.value == PitchNumber(|s.names|, octave.value, idx.value)
  {
    if pitch[p] as int >= 128 then Panic("byte index is not a char boundary")
    else
      var octave := ParseUsize(pitch[p + 1..]);
      var idx := FirstIndexOf(s.names, pitch[..p + 1]);
      if octave.None? || idx.None? then Done(Err(PitchNotFound(pitch)))
      else
        var num := PitchNumber(|s.names|, octave.value, idx.value);
        if num >= USIZE_LIMIT then Panic("attempt to multiply with overflow")
        else Done(Ok(num))
  }

  /** `pitch_number_to_name`: the name at `n % len` and the octave
      `n / len - 1`, which underflows (a panic) below the first octave; an
      empty scale divides by zero. */
  function PitchNumberToName(s: Scale, n: nat): (r: Run<string>)
    ensures r.Done? <==> |s.names| > 0 && n >= |s.names|
    ensures r.Done? ==> r.value == s.names[n % |s.names|] + FormatNat(n / |s.names| - 1)
  {
    if |s.names| == 0 then Panic("attempt to calculate the remainder with a divisor of zero")
    else if n / |s.names| < 1 then Panic("attempt to subtract with overflow")
    else Done(s.names[n % |s.names|] + FormatNat(n / |s.names| - 1))
  }

  /** Names that the name-and-octave form reads back: distinct, not empty,
      not starting like a number (so that no pitch reads as a float),
      ending with a one-byte non-digit (so that the octave starts right
      after the name). */
  predicate WellFormedNames(names: seq<string>) {
    |names| > 0
    && (forall i, j :: 0 <= i < j < |names| ==> names[i] != names[j])
    && forall i :: 0 <= i < |names| ==> WellFormedName(names[i])
  }

  predicate WellFormedName(name: string) {
    |name| > 0 && name[0] !in "0123456789.+-"
    && !IsDigit(name[|name| - 1]) && name[|name| - 1] as int < 128
  }

  lemma {:induction false} LastNonDigitOfDigits(x: string, d: string)
    requires |x| > 0 && !IsDigit(x[|x| - 1]) && AllDigits(d)
    ensures LastNonDigit(x + d) == Some(|x| - 1)
  {
    if |d| > 0 {
      assert (x + d)[..|x + d| - 1] == x + d[..|d| - 1];
      LastNonDigitOfDigits(x, d[..|d| - 1]);
    } else {
      assert x + d == x;
    }
  }

  /** A mantissa starts with a digit or a dot. */
  lemma {:induction false} MantissaStart(t: string)
    requires IsMantissa(t)
    ensures |t| > 0 && (IsDigit(t[0]) || t[0] == '.')
  {
    if !(|t| > 0 && AllDigits(t)) {
      var d :| 0 <= d < |t| && t[d] == '.' && AllDigits(t[..d]) && AllDigits(t[d + 1..]) && |t| >= 2;
      if d > 0 {
        assert t[..d][0] == t[0];
      }
    }
  }

  /** A float number starts with a digit or a dot. */
  lemma {:induction false} NotFloatNumber(s: string)
    requires |s| > 0 && !IsDigit(s[0]) && s[0] != '.'
    ensures !IsFloatNumber(s)
  {
    if IsFloatNumber(s) {
      var m :| 0 <= m <= |s| && IsMantissa(s[..m]) && IsExponentOrEmpty(s[m..]);
      MantissaStart(s[..m]);
    }
  }

  /** A text ending with a digit is none of the float words. */
  lemma {:induction false} NotFloatWord(s: string)
    requires |s| > 0 && IsDigit(s[|s| - 1])
    ensures var w := Lower(s); w != "inf" && w != "infinity" && w != "nan"
  {
    var w := Lower(s);
    LowerAt(s, |s| - 1);
    assert IsDigit(w[|w| - 1]);
  }

  /** A text starting with none of the characters a float can start with,
      and ending with a digit, is not a float. */
  lemma {:induction false} NotFloatLiteral(s: string)
    requires |s| > 0 && s[0] !in "0123456789.+-" && IsDigit(s[|s| - 1])
    ensures !IsF32Literal(s)
  {
    assert !IsDigit(s[0]);
    NotFloatNumber(s);
    NotFloatWord(s);
  }

  /** A well-formed name followed by digits is cut after the name and
      does not read as a float. */
  lemma {:induction false} NameWithOctave(name: string, digits: string)
    requires WellFormedName(name) && |digits| > 0 && AllDigits(digits)
    ensures LastNonDigit(name + digits) == Some(|name| - 1)
    ensures !IsF32Literal(name + digits)
  {
    var pitch := name + digits;
    LastNonDigitOfDigits(name, digits);
    assert pitch[0] == name[0] && pitch[|pitch| - 1] == digits[|digits| - 1];
    NotFloatLiteral(pitch);
  }

  /** A name followed by an octave, cut after the name, reads as its
      pitch number. */
  lemma {:induction false} ReadNameWithOctave(s: Scale, i: nat, o: nat)
    requires i < |s.names| && WellFormedName(s.names[i])
    requires FirstIndexOf(s.names, s.names[i]) == Some(i)
    requires PitchNumber(|s.names|, o, i) < USIZE_LIMIT
    ensures ReadNameOctave(s, s.names[i] + FormatNat(o), |s.names[i]| - 1) == Done(Ok(PitchNumber(|s.names|, o, i)))
  {
    var name := s.names[i];
    var digits := FormatNat(o);
    var pitch := name + digits;
    var p := |name| - 1;
    assert pitch[p] == name[p];
    assert pitch[..p + 1] == name;
    assert pitch[p + 1..] == digits;
    MulLe(1, |s.names|, o + 1);
    ParseFormatNat(o, USIZE_LIMIT);
  }

  /** A name followed by an octave reads as its pitch number. */
  lemma {:induction false} NameToNumber(s: Scale, i: nat, o: nat)
    requires i < |s.names| && WellFormedName(s.names[i])
    requires FirstIndexOf(s.names, s.names[i]) == Some(i)
    requires PitchNumber(|s.names|, o, i) < USIZE_LIMIT
    ensures PitchNameToNumber(s, s.names[i] + FormatNat(o)) == Done(Ok(PitchNumber(|s.names|, o, i)))
  {
    NameWithOctave(s.names[i], FormatNat(o));
    ReadNameWithOctave(s, i, o);
  }

  /** Name and octave to number and back. */
  lemma {:induction false} NameNumberRoundTrip(s: Scale, i: nat, o: nat)
    requires i < |s.names| && WellFormedName(s.names[i])
    requires FirstIndexOf(s.names, s.names[i]) == Some(i)
    requires PitchNumber(|s.names|, o, i) < USIZE_LIMIT
    ensures var n := PitchNumber(|s.names|, o, i);
      PitchNameToNumber(s, s.names[i] + FormatNat(o)) == Done(Ok(n))
      && PitchNumberToName(s, n) == Done(s.names[i] + FormatNat(o))
  {
    NameToNumber(s, i, o);
    DivModPitch(|s.names|, o, i);
  }

  lemma {:induction false} MulLe(a: int, b: int, c: nat)
    requires a <= b
    ensures a * c <= b * c
  {
  }

  /** Euclidean division undoes the pitch numbering. */
  lemma {:induction false} DivModPitch(len: nat, o: nat, i: nat)
    requires i < len
    ensures PitchNumber(len, o, i) / len == o + 1 && PitchNumber(len, o, i) % len == i
  {
    var n := PitchNumber(len, o, i);
    var q := n / len;
    var r := n % len;
    assert n == q * len + r;
    assert n == (o + 1) * len + i;
    if q > o + 1 {
      MulLe(o + 2, q, len);
      assert false;
    }
    if q < o + 1 {
      MulLe(q + 1, o + 1, len);
      assert false;
    }
  }

  /** Every number is a pitch number of its quotient and remainder. */
  lemma {:induction false} PitchOfNumber(len: nat, n: nat)
    requires 0 < len <= n
    ensures n == PitchNumber(len, n / len - 1, n % len)
  {
    var q := n / len;
    assert n == q * len + n % len;
  }

  /** `pitch_name_to_number(pitch_number_to_name(n)) == n` for every number
      of a well-formed scale from its first octave on. */
  lemma {:induction false} NumberNameRoundTrip(s: Scale, n: nat)
    requires WellFormedNames(s.names) && |s.names| <= n < USIZE_LIMIT
    ensures PitchNumberToName(s, n).Done?
    ensures PitchNameToNumber(s, PitchNumberToName(s, n).value) == Done(Ok(n))
  {
    var len := |s.names|;
    var i := n % len;
    var o := n / len - 1;
    PitchOfNumber(len, n);
    FirstIndexOfAt(s.names, i);
    NameNumberRoundTrip(s, i, o);
  }

  // The scales of the collection.

  const PYTHAGOREAN_NAMES: seq<string> :=
    ["C", "Db", "C#", "D", "Eb", "D#", "E", "F", "Gb", "F#", "G", "Ab", "G#", "A", "Bb", "A#", "B"]
  const NATURAL_NAMES: seq<string> := ["C", "C#", "D", "D#", "E", "F", "F#", "G", "G#", "A", "A#", "B"]
  const ET12_NAMES: seq<string> := ["C", "C#", "D", "D#", "E", "F", "F#", "G", "G#", "A", "A#", "B"]
  const ET17_NAMES: seq<string> :=
    ["C", "Db", "C#", "D", "Eb", "D#", "E", "F", "Gb", "F#", "G", "Ab", "G#", "A", "Bb", "A#", "B"]
  const ET19_NAMES: seq<string> :=
    ["C", "C#", "Db", "D", "D#", "Eb", "E", "Fb", "F", "F#", "Gb", "G", "G#", "Ab", "A", "A#", "Bb", "B", "Cb"]
  const ET24_NAMES: seq<string> :=
    ["C", "Cd", "C#", "Db", "D", "Dd", "D#", "Eb", "E", "Fb", "F", "Fd", "F#", "Gb", "G", "Gd", "G#", "Ab",
     "A", "Ad", "A#", "Bb", "B", "Cb"]
  // The 53-tone names, listed in groups of eight so that facts about
  // single names stay cheap to prove.
  const ET53_NAMES: seq<string> := ET53_1 + ET53_2 + ET53_3 + ET53_4 + ET53_5 + ET53_6 + ET53_7 + ["vC"]
  const ET53_1: seq<string> := ["C", "^C", "^^C", "vvC#", "vC#", "C#", "^C#", "vvD"]
  const ET53_2: seq<string> := ["vD", "D", "^D", "^^D", "vvD#", "vD#", "D#", "^D#"]
  const ET53_3: seq<string> := ["vvE", "vE", "E", "^E", "^^E", "vF", "F", "^F"]
  const ET53_4: seq<string> := ["^^F", "vvF#", "vF#", "F#", "^F#", "vvG", "vG", "G"]
  const ET53_5: seq<string> := ["^G", "^^G", "vvG#", "vG#", "G#", "^G#", "vvA", "vA"]
  const ET53_6: seq<string> := ["A", "^A", "^^A", "vvA#", "vA#", "A#", "^A#", "vvB"]
  const ET53_7: seq<string> := ["vB", "B", "^B", "^^B"]

  /** `create_24et_scale` builds this scale, but the collection leaves it out. */
  const ET24: Scale := Scale("24ET", ET24_NAMES)

  /** `Collection::new`. */
  function ScaleCollection(): (r: map<string, Scale>)
    ensures r.Keys == {"pythagorean", "natural", "12ET", "17ET", "19ET", "53ET"}
    ensures forall k :: k in r ==> r[k].name == k
  {
    map["pythagorean" := Scale("pythagorean", PYTHAGOREAN_NAMES),
        "natural" := Scale("natural", NATURAL_NAMES),
        "12ET" := Scale("12ET", ET12_NAMES),
        "17ET" := Scale("17ET", ET17_NAMES),
        "19ET" := Scale("19ET", ET19_NAMES),
        "53ET" := Scale("53ET", ET53_NAMES)]
  }

  function ScaleUnknown(name: string): string { "Tseq scale " + name + " unknown!" }

  /** `Collection::fetch`. */
  function FetchScale(c: map<string, Scale>, name: string): (r: Result<Scale>)
    ensures r.Ok? <==> name in c
    ensures r.Ok? ==> r.value == c[name]
    ensures r.Err? ==> r.msg == ScaleUnknown(name)
  {
    if name in c then Ok(c[name]) else Err(ScaleUnknown(name))
  }

  /** The 24-tone scale is built but cannot be fetched. */
  lemma {:induction false} Et24IsNotRegistered()
    ensures FetchScale(ScaleCollection(), ET24.name) == Err("Tseq scale 24ET unknown!")
  {
    assert "24ET" != "pythagorean" && "24ET" != "natural" && "24ET" != "12ET";
    assert "24ET" != "17ET" && "24ET" != "19ET" && "24ET" != "53ET";
  }

  /** The 12-tone names are well formed, so every 12ET number from 12 on
      reads back. */
  lemma {:induction false} Et12NamesWellFormed()
    ensures WellFormedNames(ET12_NAMES)
  {
    Et12NamesDistinct();
    assert forall i :: 0 <= i < |ET12_NAMES| ==> WellFormedName(ET12_NAMES[i]);
  }

  lemma {:induction false} Et12NamesDistinct()
    ensures forall i, j :: 0 <= i < j < |ET12_NAMES| ==> ET12_NAMES[i] != ET12_NAMES[j]
  {
  }

  /** In the default scale every number from its first octave on is
      written as a name and read back. */
  lemma {:induction false} DefaultScaleRoundTrip(n: nat)
    requires 12 <= n < USIZE_LIMIT
    ensures FetchScale(ScaleCollection(), DEFAULT).Ok?
    ensures var s := FetchScale(ScaleCollection(), DEFAULT).value;
      PitchNumberToName(s, n).Done? && PitchNameToNumber(s, PitchNumberToName(s, n).value) == Done(Ok(n))
  {
    var s := FetchScale(ScaleCollection(), DEFAULT).value;
    assert s.names == ET12_NAMES;
    Et12NamesWellFormed();
    NumberNameRoundTrip(s, n);
  }

  /** `vC` is the last 53-tone name and is nowhere before. */
  lemma {:induction false} Et53LastName()
    ensures |ET53_NAMES| == 53 && ET53_NAMES[52] == "vC"
    ensures forall j :: 0 <= j < 52 ==> ET53_NAMES[j] != "vC"
  {
    var before := ET53_1 + ET53_2 + ET53_3 + ET53_4 + ET53_5 + ET53_6 + ET53_7;
    assert "vC" !in ET53_1 && "vC" !in ET53_2 && "vC" !in ET53_3 && "vC" !in ET53_4;
    assert "vC" !in ET53_5 && "vC" !in ET53_6 && "vC" !in ET53_7;
    assert "vC" !in before;
    assert ET53_NAMES == before + ["vC"];
    assert ET53_NAMES[..52] == before;
  }

  /** The examples of the 53-tone scale: `vC0` is 105 and back. */
  lemma {:induction false} Et53Examples()
    ensures PitchNameToNumber(ScaleCollection()["53ET"], "vC0") == Done(Ok(105))
    ensures PitchNumberToName(ScaleCollection()["53ET"], 105) == Done("vC0")
  {
    var s := ScaleCollection()["53ET"];
    assert s.names == ET53_NAMES;
    Et53LastName();
    FirstIndexOfAt(s.names, 52);
    assert FormatNat(0) == "0";
    assert "vC" + FormatNat(0) == "vC0";
    NameNumberRoundTrip(s, 52, 0);
  }
}
