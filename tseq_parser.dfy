/** The grammar of the tseq sequencer's text (session/src/talkers/tseq/parser.rs):
    nom parser combinators over `&str`, modelled as functions from the input
    to what is left of it and the value read. The values keep the slices of
    the text they were read from; numbers read by `float` are exact reals. */
module TseqParser {
  import opened Wrappers
  import opened Numeric
  import opened Strs

  /** What a nom parser returns: the input left and the value read; a
      recoverable `Err::Error`, on which `opt`, `alt` and `many0` backtrack;
      or an `Err::Failure` raised under `cut`, which stops every caller. */
  datatype PResult<+T> = Parsed(rest: string, value: T) | Error | Failure

  /** A part of a sequence: a pattern, optionally notes and velocities, and
      an optional duration multiplier. */
  datatype PartRef = PartRef(pattern: string, notes: Option<string>, velos: Option<string>, mul: Option<real>)

  datatype Fragment = PartFragment(part: PartRef) | SequenceFragment(id: string)

  /** One definition of the text. */
  datatype Exp =
    | BeatExp(id: string, bpm: int)
    | NotesExp(id: string, names: seq<string>)
    | PatternExp(id: string, times: seq<real>, duration: real)
    | VelocitiesExp(id: string, values: seq<real>)
    | SequenceExp(id: string, beat: Option<string>, fragments: seq<Fragment>)

  /** The character classes of nom's `&str` parsers: `space0`/`space1` take
      spaces and tabs, `alphanumeric1` and `digit1` ASCII letters and digits. */
  predicate IsSpace(c: char) { c == ' ' || c == '\t' }

  predicate IsAlnum(c: char) { 'a' <= c <= 'z' || 'A' <= c <= 'Z' || IsDigit(c) }

  predicate IsIdChar(c: char) { IsAlnum(c) || c == '_' }

  /** The classes a run of characters is read in. */
  datatype CharClass = Blank | Digit | Alnum | IdChar

  predicate InClass(k: CharClass, c: char) {
    match k
    case Blank => IsSpace(c)
    case Digit => IsDigit(c)
    case Alnum => IsAlnum(c)
    case IdChar => IsIdChar(c)
  }

  predicate Blanks(s: string) { forall i :: 0 <= i < |s| ==> IsSpace(s[i]) }

  /** The text of an identifier: one or more letters, digits or `_`. */
  predicate IsIdText(s: string) { |s| > 0 && forall i :: 0 <= i < |s| ==> IsIdChar(s[i]) }

  predicate IsAlnumText(s: string) { |s| > 0 && forall i :: 0 <= i < |s| ==> IsAlnum(s[i]) }

  /** The length of the longest prefix of `s` whose characters are of class `p`. */
  function LeadingRun(s: string, p: CharClass): (n: nat)
    ensures n <= |s| && (forall i :: 0 <= i < n ==> InClass(p, s[i])) && (n < |s| ==> !InClass(p, s[n]))
  {
    if |s| == 0 || !InClass(p, s[0]) then 0
    else
      var k := LeadingRun(s[1..], p);
      assert forall i :: 1 <= i < k + 1 ==> s[i] == s[1..][i - 1];
      k + 1
  }

  /** A run continues past a prefix all of whose characters satisfy `p`. */
  lemma {:induction false} RunAppend(x: string, y: string, p: CharClass)
    requires forall i :: 0 <= i < |x| ==> InClass(p, x[i])
    ensures LeadingRun(x + y, p) == |x| + LeadingRun(y, p)
    decreases |x|
  {
    if |x| > 0 {
      assert (x + y)[1..] == x[1..] + y;
      RunAppend(x[1..], y, p);
    } else {
      assert x + y == y;
    }
  }

  function Pow10(n: nat): (r: nat)
    ensures r >= 1
  {
    if n == 0 then 1 else 10 * Pow10(n - 1)
  }

  /** A number as `recognize_float` reads it: its sign, the values of the
      digits before and after the point and the count of the latter, and
      the exponent's sign and value. */
  datatype Decimal = Decimal(negative: bool, whole: nat, fraction: nat, fractionDigits: nat, expNegative: bool, exponent: nat) {
    /** The exact value the text denotes. */
    function Value(): real {
      var m := whole as real + fraction as real / Pow10(fractionDigits) as real;
      var scaled := if expNegative then m / Pow10(exponent) as real else m * Pow10(exponent) as real;
      if negative then -scaled else scaled
    }
  }

  /** `space0`: what is left after the leading blanks. */
  function Space0(s: string): (rest: string)
    ensures SuffixOf(rest, s)
    ensures |rest| > 0 ==> !IsSpace(rest[0])
  {
    s[LeadingRun(s, Blank)..]
  }

  lemma Space0Of(sp: string, rest: string)
    requires Blanks(sp) && (|rest| == 0 || !IsSpace(rest[0]))
    ensures Space0(sp + rest) == rest
  {
    RunAppend(sp, rest, Blank);
    assert (sp + rest)[|sp|..] == rest;
  }

  /** `many0_count(alt((alphanumeric1, tag("_"))))` measured in characters:
      pieces are read while one of the two alternatives applies. */
  function IdPieces(s: string): (n: nat)
    ensures n <= |s|
    decreases |s|
  {
    if |s| > 0 && IsAlnum(s[0]) then
      var k := LeadingRun(s, Alnum);
      k + IdPieces(s[k..])
    else if |s| > 0 && s[0] == '_' then 1 + IdPieces(s[1..])
    else 0
  }

  /** Reading alternating pieces reads exactly the longest identifier prefix. */
  lemma {:induction false} IdPiecesIsIdRun(s: string)
    ensures IdPieces(s) == LeadingRun(s, IdChar)
    decreases |s|
  {
    if |s| > 0 && IsAlnum(s[0]) {
      var k := LeadingRun(s, Alnum);
      IdPiecesIsIdRun(s[k..]);
      assert s == s[..k] + s[k..];
      RunAppend(s[..k], s[k..], IdChar);
    } else if |s| > 0 && s[0] == '_' {
      IdPiecesIsIdRun(s[1..]);
    }
  }

  /** `id`: `recognize(many1_count(...))`, the longest non-empty prefix of
      letters, digits and `_`. */
  function Id(s: string): (r: PResult<string>)
    ensures !r.Failure?
    ensures r.Parsed? <==> |s| > 0 && IsIdChar(s[0])
    ensures r.Parsed? ==> s == r.value + r.rest && IsIdText(r.value)
    ensures r.Parsed? ==> |r.rest| == 0 || !IsIdChar(r.rest[0])
  {
    var n := IdPieces(s);
    IdPiecesIsIdRun(s);
    assert s == s[..n] + s[n..];
    if n == 0 then Error else Parsed(s[n..], s[..n])
  }

  /** An identifier that no identifier character follows is read whole. */
  lemma IdOf(id: string, rest: string)
    requires IsIdText(id) && (|rest| == 0 || !IsIdChar(rest[0]))
    ensures Id(id + rest) == Parsed(rest, id)
  {
    IdPiecesIsIdRun(id + rest);
    RunAppend(id, rest, IdChar);
    assert (id + rest)[..|id|] == id && (id + rest)[|id|..] == rest;
  }

  /** `comment`: `#`, then everything up to the first line end, which is
      consumed too. */
  function Comment(s: string): (r: PResult<()>)
    ensures !r.Failure?
    ensures r.Parsed? <==> |s| > 0 && s[0] == '#' && '\n' in s[1..]
    ensures r.Parsed? ==> exists k :: 0 < k < |s| && s[k] == '\n' && '\n' !in s[1..k] && r.rest == s[k + 1..]
  {
    if |s| > 0 && s[0] == '#' then
      match FindChar(s[1..], '\n')
      case Some(k) =>
        assert s[1..][..k] == s[1..k + 1];
        Parsed(s[k + 2..], ())
      case None => Error
    else Error
  }

  /** `delimited(space0, char(c), space0)`: the character `c`, which blanks
      may surround. */
  function Punct(c: char, s: string): (r: PResult<()>)
    ensures !r.Failure?
    ensures r.Parsed? ==> SuffixOf(r.rest, s) && |r.rest| < |s|
    ensures r.Parsed? <==> |Space0(s)| > 0 && Space0(s)[0] == c
  {
    var t := Space0(s);
    if |t| > 0 && t[0] == c then
      SuffixTrans(t[1..], t, s);
      SuffixTrans(Space0(t[1..]), t[1..], s);
      Parsed(Space0(t[1..]), ())
    else Error
  }

  lemma PunctOf(c: char, sp1: string, sp2: string, rest: string)
    requires Blanks(sp1) && Blanks(sp2) && !IsSpace(c) && (|rest| == 0 || !IsSpace(rest[0]))
    ensures Punct(c, sp1 + ([c] + (sp2 + rest))) == Parsed(rest, ())
  {
    Space0Of(sp1, [c] + (sp2 + rest));
    assert ([c] + (sp2 + rest))[1..] == sp2 + rest;
    Space0Of(sp2, rest);
  }

  /** `head(inst)`: the instruction word, at least one blank, an `id`, and a
      `:` that blanks may surround; the value is the identifier. */
  function Head(inst: string, s: string): (r: PResult<string>)
    ensures !r.Failure?
    ensures r.Parsed? ==> StartsWith(s, inst) && IsIdText(r.value)
    ensures r.Parsed? ==> SuffixOf(r.rest, s) && |r.rest| < |s|
  {
    if !StartsWith(s, inst) then Error
    else
      var t := s[|inst|..];
      var k := LeadingRun(t, Blank);
      if k == 0 then Error
      else
        match IdColon(t[k..])
        case Parsed(rest, id) =>
          SuffixTrans(t[k..], t, s);
          SuffixTrans(rest, t[k..], s);
          Parsed(rest, id)
        case _ => Error
  }

  /** The part of a head after the blanks: an `id`, then a `:` that blanks
      may surround. */
  function IdColon(u: string): (r: PResult<string>)
    ensures !r.Failure?
    ensures r.Parsed? ==> IsIdText(r.value) && SuffixOf(r.rest, u) && |r.rest| < |u|
  {
    match Id(u)
    case Parsed(after, id) =>
      (match Punct(':', after)
       case Parsed(rest, _) =>
         assert SuffixOf(after, u);
         SuffixTrans(rest, after, u);
         Parsed(rest, id)
       case _ => Error)
    case _ => Error
  }

  lemma IdColonOf(id: string, sp2: string, sp3: string, rest: string)
    requires IsIdText(id) && Blanks(sp2) && Blanks(sp3)
    requires |rest| == 0 || !IsSpace(rest[0])
    ensures IdColon(id + (sp2 + (":" + (sp3 + rest)))) == Parsed(rest, id)
  {
    var after := sp2 + (":" + (sp3 + rest));
    assert |after| == 0 || !IsIdChar(after[0]) by {
      if |sp2| > 0 {
        assert after[0] == sp2[0];
      } else {
        assert after == ":" + (sp3 + rest);
      }
    }
    IdOf(id, after);
    PunctOf(':', sp2, sp3, rest);
  }

  /** The head of a definition with the blanks it allows reads as its
      identifier. */
  lemma HeadOf(inst: string, sp1: string, id: string, sp2: string, sp3: string, rest: string)
    requires Blanks(sp1) && |sp1| > 0 && IsIdText(id) && Blanks(sp2) && Blanks(sp3)
    requires |rest| == 0 || !IsSpace(rest[0])
    ensures Head(inst, inst + (sp1 + (id + (sp2 + (":" + (sp3 + rest)))))) == Parsed(rest, id)
  {
    var u := id + (sp2 + (":" + (sp3 + rest)));
    var t := sp1 + u;
    var s := inst + t;
    assert s[..|inst|] == inst && s[|inst|..] == t;
    assert LeadingRun(u, Blank) == 0 by {
      assert u[0] == id[0];
    }
    RunAppend(sp1, u, Blank);
    assert t[|sp1|..] == u;
    IdColonOf(id, sp2, sp3, rest);
  }

  /** `end`: optional blanks, then a line end. */
  function End(s: string): (r: PResult<()>)
    ensures !r.Failure?
    ensures r.Parsed? <==> |Space0(s)| > 0 && Space0(s)[0] == '\n'
    ensures r.Parsed? ==> SuffixOf(r.rest, s) && |r.rest| < |s|
  {
    var t := Space0(s);
    if |t| > 0 && t[0] == '\n' then
      SuffixTrans(t[1..], t, s);
      Parsed(t[1..], ())
    else Error
  }

  lemma EndOf(sp: string, rest: string)
    requires Blanks(sp)
    ensures End(sp + ("\n" + rest)) == Parsed(rest, ())
  {
    Space0Of(sp, "\n" + rest);
    assert ("\n" + rest)[1..] == rest;
  }

  /** `slash`: a `/` that blanks may surround. */
  function Slash(s: string): (r: PResult<()>)
    ensures !r.Failure?
    ensures r.Parsed? ==> SuffixOf(r.rest, s) && |r.rest| < |s|
  {
    Punct('/', s)
  }

  lemma RunDigits(s: string, k: nat)
    requires k <= LeadingRun(s, Digit)
    ensures AllDigits(s[..k])
  {
    forall i | 0 <= i < k
      ensures IsDigit(s[..k][i])
    {
      assert s[..k][i] == s[i];
      assert InClass(Digit, s[i]);
    }
  }

  /** The mantissa of a number: digits with an optional `.` and fraction,
      or a `.` and digits; its length, the value of the digits before the
      point, and the value and count of those after it; or nothing. */
  function Mantissa(t: string): (r: Option<(nat, nat, nat, nat)>)
    ensures r.Some? ==> 0 < r.value.0 <= |t|
    ensures |t| > 0 && IsDigit(t[0]) ==> r.Some?
  {
    var a := LeadingRun(t, Digit);
    if a < |t| && t[a] == '.' then
      var b := LeadingRun(t[a + 1..], Digit);
      if a + b == 0 then None else Some((a + 1 + b, DigitRun(t, a), DigitRun(t[a + 1..], b), b))
    else if a == 0 then None
    else Some((a, DigitRun(t, a), 0, 0))
  }

  /** The value of the first `k` characters of `s`, all of them digits. */
  function DigitRun(s: string, k: nat): (v: nat)
    requires k <= LeadingRun(s, Digit)
    ensures AllDigits(s[..k]) && v == DigitsValue(s[..k])
  {
    RunDigits(s, k);
    DigitsValue(s[..k])
  }

  /** The exponent of a number: `e` or `E`, an optional sign and digits; its
      length (0 when there is none), its sign and its value, or nothing
      when the mark has no digits after it. */
  function Exponent(u: string): (r: Option<(nat, bool, nat)>)
    ensures r.Some? ==> r.value.0 <= |u|
    ensures r.Some? && r.value.0 == 0 ==> r.value == (0, false, 0)
  {
    if |u| > 0 && (u[0] == 'e' || u[0] == 'E') then
      var esLen := if |u| > 1 && (u[1] == '+' || u[1] == '-') then 1 else 0;
      var w := u[1 + esLen..];
      var d := LeadingRun(w, Digit);
      if d == 0 then None
      else Some((1 + esLen + d, esLen == 1 && u[1] == '-', DigitRun(w, d)))
    else Some((0, false, 0))
  }

  /** `float` as `recognize_float` followed by `parse`: an optional sign, a
      mantissa, and an optional exponent whose digits are read under `cut`,
      so that an exponent mark without digits is a `Failure`. */
  function Float(s: string): (r: PResult<real>)
    ensures r.Parsed? ==> SuffixOf(r.rest, s) && |r.rest| < |s|
    ensures |s| > 0 && IsDigit(s[0]) ==> !r.Error?
  {
    var signLen := if |s| > 0 && (s[0] == '+' || s[0] == '-') then 1 else 0;
    var t := s[signLen..];
    var mantissa := Mantissa(t);
    if mantissa.None? then Error
    else
      var m := mantissa.value.0;
      var exponent := Exponent(t[m..]);
      if exponent.None? then Failure
      else
        var negative := signLen == 1 && s[0] == '-';
        var d := Decimal(negative, mantissa.value.1, mantissa.value.2, mantissa.value.3, exponent.value.1, exponent.value.2);
        Parsed(s[signLen + m + exponent.value.0..], d.Value())
  }

  /** A decimal `a.b`, `a.` or `.b` that no digit or exponent mark follows
      reads as the value of its digits. */
  lemma FloatOfDecimal(a: string, b: string, rest: string)
    requires AllDigits(a) && AllDigits(b) && |a| + |b| > 0
    requires |rest| == 0 || !(IsDigit(rest[0]) || rest[0] == 'e' || rest[0] == 'E')
    ensures Float(a + ("." + (b + rest))) == Parsed(rest, Decimal(false, DigitsValue(a), DigitsValue(b), |b|, false, 0).Value())
  {
    var s := a + ("." + (b + rest));
    var m := |a| + 1 + |b|;
    MantissaOfDecimal(a, b, rest);
    assert Exponent(rest) == Some((0, false, 0));
    FloatUnsigned(s, m, DigitsValue(a), DigitsValue(b), |b|, 0, false, 0);
  }

  lemma MantissaOfDecimal(a: string, b: string, rest: string)
    requires AllDigits(a) && AllDigits(b) && |a| + |b| > 0
    requires |rest| == 0 || !IsDigit(rest[0])
    ensures Mantissa(a + ("." + (b + rest))) == Some((|a| + 1 + |b|, DigitsValue(a), DigitsValue(b), |b|))
    ensures (a + ("." + (b + rest)))[|a| + 1 + |b| + 0..] == rest
  {
    var s := a + ("." + (b + rest));
    SlicesOf4(a, ".", b, rest);
    RunUntil(a, "." + (b + rest));
    RunUntil(b, rest);
    assert s[|a| + 1..] == b + rest;
    MantissaDot(s, |a|, |b|);
    DigitRunPrefix(a, "." + (b + rest));
    DigitRunPrefix(b, rest);
  }

  /** Digits at the front of a text read as their value. */
  lemma DigitRunPrefix(x: string, y: string)
    requires AllDigits(x)
    ensures |x| <= LeadingRun(x + y, Digit) && DigitRun(x + y, |x|) == DigitsValue(x)
  {
    RunAppend(x, y, Digit);
    assert (x + y)[..|x|] == x;
  }

  /** A run of digits ends where the first non-digit stands. */
  lemma RunUntil(a: string, rest: string)
    requires AllDigits(a) && (|rest| == 0 || !IsDigit(rest[0]))
    ensures LeadingRun(a + rest, Digit) == |a|
  {
    RunAppend(a, rest, Digit);
    assert LeadingRun(rest, Digit) == 0;
  }

  /** An unsigned number reads as its mantissa and exponent. */
  lemma FloatUnsigned(s: string, m: nat, whole: nat, fraction: nat, digits: nat, e: nat, expNegative: bool, exponent: nat)
    requires |s| > 0 && s[0] != '+' && s[0] != '-'
    requires Mantissa(s) == Some((m, whole, fraction, digits))
    requires Exponent(s[m..]) == Some((e, expNegative, exponent))
    ensures Float(s) == Parsed(s[m + e..], Decimal(false, whole, fraction, digits, expNegative, exponent).Value())
  {
    var signLen := if |s| > 0 && (s[0] == '+' || s[0] == '-') then 1 else 0;
    assert signLen == 0;
    assert s[signLen..] == s;
  }

  lemma MantissaDot(t: string, a: nat, b: nat)
    requires a == LeadingRun(t, Digit) && a < |t| && t[a] == '.'
    requires b == LeadingRun(t[a + 1..], Digit) && a + b > 0
    ensures Mantissa(t) == Some((a + 1 + b, DigitRun(t, a), DigitRun(t[a + 1..], b), b))
  {
  }

  /** Digits that no digit, `.` or exponent mark follows read as their
      value. */
  lemma FloatOfInteger(a: string, rest: string)
    requires AllDigits(a) && |a| > 0
    requires |rest| == 0 || !(IsDigit(rest[0]) || rest[0] == '.' || rest[0] == 'e' || rest[0] == 'E')
    ensures Float(a + rest) == Parsed(rest, Decimal(false, DigitsValue(a), 0, 0, false, 0).Value())
  {
    var s := a + rest;
    RunUntil(a, rest);
    DigitRunPrefix(a, rest);
    MantissaInteger(s, |a|);
    assert s[|a|..] == rest;
    assert Exponent(rest) == Some((0, false, 0));
    FloatUnsigned(s, |a|, DigitsValue(a), 0, 0, 0, false, 0);
    assert s[|a| + 0..] == rest;
  }

  lemma MantissaInteger(t: string, a: nat)
    requires a == LeadingRun(t, Digit) && a > 0 && !(a < |t| && t[a] == '.')
    ensures Mantissa(t) == Some((a, DigitRun(t, a), 0, 0))
  {
  }

  /** With no exponent, a number's value is its digits before the point
      plus those after it over the matching power of ten. */
  lemma DecimalValueOf(whole: nat, fraction: nat, digits: nat)
    ensures Decimal(false, whole, fraction, digits, false, 0).Value() == whole as real + fraction as real / Pow10(digits) as real
  {
    assert Pow10(0) == 1;
  }

  /** An exponent mark without digits after it is a `Failure`, not an
      `Error`: `opt` cannot recover from it. */
  lemma FloatCutExponent(a: string, rest: string)
    requires AllDigits(a) && |a| > 0
    requires |rest| == 0 || !(IsDigit(rest[0]) || rest[0] == '+' || rest[0] == '-')
    ensures Float(a + ("e" + rest)) == Failure
  {
    var s := a + ("e" + rest);
    RunUntil(a, "e" + rest);
    MantissaInteger(s, |a|);
    assert s[|a|..] == "e" + rest;
    ExponentWithoutDigits("e" + rest);
    FloatWithoutExponent(s, |a|);
  }

  /** An exponent mark and no digit is no exponent. */
  lemma ExponentWithoutDigits(u: string)
    requires |u| > 0 && (u[0] == 'e' || u[0] == 'E')
    requires |u| == 1 || !(IsDigit(u[1]) || u[1] == '+' || u[1] == '-')
    ensures Exponent(u) == None
  {
    assert LeadingRun(u[1..], Digit) == 0;
  }

  lemma FloatWithoutExponent(s: string, m: nat)
    requires |s| > 0 && s[0] != '+' && s[0] != '-'
    requires Mantissa(s).Some? && Mantissa(s).value.0 == m
    requires Exponent(s[m..]) == None
    ensures Float(s) == Failure
  {
    assert s[0..] == s;
  }

  /** `many0(terminated(float, space0))`: numbers, each followed by optional
      blanks, until `float` fails; a `Failure` is passed on. */
  function Floats(s: string): (r: PResult<seq<real>>)
    ensures !r.Error?
    ensures r.Parsed? ==> SuffixOf(r.rest, s)
    decreases |s|
  {
    match Float(s)
    case Error => Parsed(s, [])
    case Failure => Failure
    case Parsed(u, x) =>
      match Floats(Space0(u))
      case Parsed(v, xs) =>
        SuffixTrans(Space0(u), u, s);
        SuffixTrans(v, Space0(u), s);
        Parsed(v, [x] + xs)
      case _ => Failure
  }

  /** `many0(terminated(alphanumeric1, space0))`: names of letters and
      digits, each followed by optional blanks. */
  function Names(s: string): (r: PResult<seq<string>>)
    ensures r.Parsed?
    ensures SuffixOf(r.rest, s)
    ensures forall i :: 0 <= i < |r.value| ==> IsAlnumText(r.value[i])
    decreases |s|
  {
    var k := LeadingRun(s, Alnum);
    if k == 0 then Parsed(s, [])
    else
      var u := Space0(s[k..]);
      var next := Names(u);
      SuffixTrans(u, s[k..], s);
      SuffixTrans(next.rest, u, s);
      RunText(s, k);
      ConsTexts(s[..k], next.value);
      Parsed(next.rest, [s[..k]] + next.value)
  }

  /** No name is read where no letter or digit starts the text. */
  lemma NamesNone(s: string)
    requires |s| > 0 && !IsAlnum(s[0])
    ensures Names(s) == Parsed(s, [])
  {
    assert LeadingRun(s, Alnum) == 0;
  }

  lemma RunText(s: string, k: nat)
    requires 0 < k && k == LeadingRun(s, Alnum)
    ensures IsAlnumText(s[..k])
  {
    forall i | 0 <= i < k
      ensures IsAlnum(s[..k][i])
    {
      assert s[..k][i] == s[i];
      assert InClass(Alnum, s[i]);
    }
  }

  lemma ConsTexts(name: string, names: seq<string>)
    requires IsAlnumText(name) && forall i :: 0 <= i < |names| ==> IsAlnumText(names[i])
    ensures forall i :: 0 <= i < |[name] + names| ==> IsAlnumText(([name] + names)[i])
  {
      forall i | 0 <= i < |[name] + names|
        ensures IsAlnumText(([name] + names)[i])
      {
        if i > 0 {
          assert ([name] + names)[i] == names[i - 1];
        }
      }
  }

  /** A name followed by blanks, or by something that is neither a letter,
      a digit nor a blank, is the next name of the list. */
  lemma NamesCons(name: string, sp: string, rest: string)
    requires IsAlnumText(name) && Blanks(sp)
    requires |rest| == 0 || !IsSpace(rest[0])
    requires |sp| > 0 || |rest| == 0 || !IsAlnum(rest[0])
    ensures Names(name + (sp + rest)) == Parsed(Names(rest).rest, [name] + Names(rest).value)
  {
    var s := name + (sp + rest);
    RunAppend(name, sp + rest, Alnum);
    assert LeadingRun(sp + rest, Alnum) == 0 by {
      assert |sp| > 0 ==> (sp + rest)[0] == sp[0];
      assert |sp| == 0 ==> sp + rest == rest;
    }
    assert s[..|name|] == name && s[|name|..] == sp + rest;
    Space0Of(sp, rest);
    var next := Names(rest);
    assert Names(s) == Parsed(next.rest, [s[..|name|]] + next.value);
  }

  /** `tuple((head("beat"), digit1, end))`: the identifier and the digits
      of a tempo line. */
  function BeatLine(s: string): (r: PResult<(string, string)>)
    ensures !r.Failure?
    ensures r.Parsed? ==> SuffixOf(r.rest, s) && |r.rest| < |s|
    ensures r.Parsed? ==> IsIdText(r.value.0) && |r.value.1| > 0 && AllDigits(r.value.1)
  {
    var h := Head("beat", s);
    if !h.Parsed? then Error
    else
      var u := h.rest;
      var k := LeadingRun(u, Digit);
      var e := End(u[k..]);
      if k == 0 || !e.Parsed? then Error
      else
        RunDigits(u, k);
        SuffixOfDrop(u, k);
        SuffixTrans(e.rest, u[k..], u);
        SuffixTrans(e.rest, u, s);
        Parsed(e.rest, (h.value, u[..k]))
  }

  /** `beat` as written: `i32::from_str(bpm).unwrap()` on the digits read,
      which panics when they exceed the largest `i32`. */
  function BeatAsWritten(s: string): (r: Run<PResult<Exp>>)
    ensures r.Done? && r.value.Parsed? ==> r.value.value.BeatExp? && SuffixOf(r.value.rest, s)
    ensures r.Panic? <==> BeatLine(s).Parsed? && DigitsValue(BeatLine(s).value.1) > I32_MAX
  {
    var line := BeatLine(s);
    if !line.Parsed? then Done(Error)
    else
      var bpm := DigitsValue(line.value.1);
      if bpm > I32_MAX then Panic("called `Result::unwrap()` on an `Err` value: ParseIntError")
      else Done(Parsed(line.rest, BeatExp(line.value.0, bpm)))
  }

  /** `beat` as evidently intended: a tempo that does not fit an `i32` is
      refused like any other malformed line. */
  function Beat(s: string): (r: PResult<Exp>)
    ensures !r.Failure?
    ensures r.Parsed? ==> SuffixOf(r.rest, s) && |r.rest| < |s|
    ensures r.Parsed? ==> r.value.BeatExp? && IsIdText(r.value.id) && 0 <= r.value.bpm <= I32_MAX
  {
    var line := BeatLine(s);
    if !line.Parsed? || DigitsValue(line.value.1) > I32_MAX then Error
    else Parsed(line.rest, BeatExp(line.value.0, DigitsValue(line.value.1)))
  }

  /** Wherever the written `beat` does not panic, the two agree. */
  lemma BeatAgrees(s: string)
    ensures BeatAsWritten(s).Done? ==> BeatAsWritten(s).value == Beat(s)
    ensures BeatAsWritten(s).Panic? ==> Beat(s).Error?
  {
  }

  /** `beat <id> : <digits>` with any blanks around the `:` and before the
      line end is a tempo line with that identifier and those digits. */
  lemma BeatLineOf(sp1: string, id: string, sp2: string, sp3: string, digits: string, sp4: string, rest: string)
    requires Blanks(sp1) && |sp1| > 0 && IsIdText(id) && Blanks(sp2) && Blanks(sp3) && Blanks(sp4)
    requires AllDigits(digits) && |digits| > 0
    ensures BeatLine("beat" + (sp1 + (id + (sp2 + (":" + (sp3 + (digits + (sp4 + ("\n" + rest))))))))) == Parsed(rest, (id, digits))
  {
    HeadOf("beat", sp1, id, sp2, sp3, digits + (sp4 + ("\n" + rest)));
    DigitsThenEnd(digits, sp4, rest);
  }

  lemma DigitsThenEnd(digits: string, sp: string, rest: string)
    requires AllDigits(digits) && Blanks(sp)
    ensures LeadingRun(digits + (sp + ("\n" + rest)), Digit) == |digits|
    ensures (digits + (sp + ("\n" + rest)))[..|digits|] == digits
    ensures End((digits + (sp + ("\n" + rest)))[|digits|..]) == Parsed(rest, ())
  {
    var after := sp + ("\n" + rest);
    RunAppend(digits, after, Digit);
    assert |sp| > 0 ==> after[0] == sp[0];
    assert (digits + after)[|digits|..] == after;
    EndOf(sp, rest);
  }

  /** Such a line whose tempo fits an `i32` reads as the identifier and the
      decimal value of the digits. */
  lemma BeatOf(sp1: string, id: string, sp2: string, sp3: string, digits: string, sp4: string, rest: string)
    requires Blanks(sp1) && |sp1| > 0 && IsIdText(id) && Blanks(sp2) && Blanks(sp3) && Blanks(sp4)
    requires AllDigits(digits) && |digits| > 0 && DigitsValue(digits) <= I32_MAX
    ensures Beat("beat" + (sp1 + (id + (sp2 + (":" + (sp3 + (digits + (sp4 + ("\n" + rest))))))))) == Parsed(rest, BeatExp(id, DigitsValue(digits)))
  {
    BeatLineOf(sp1, id, sp2, sp3, digits, sp4, rest);
  }

  /** A tempo of more digits than an `i32` holds makes the written `beat`
      panic on a line the grammar accepts. */
  lemma BeatOverflowPanics(sp1: string, id: string, sp2: string, sp3: string, digits: string, sp4: string, rest: string)
    requires Blanks(sp1) && |sp1| > 0 && IsIdText(id) && Blanks(sp2) && Blanks(sp3) && Blanks(sp4)
    requires AllDigits(digits) && |digits| > 0 && DigitsValue(digits) > I32_MAX
    ensures BeatAsWritten("beat" + (sp1 + (id + (sp2 + (":" + (sp3 + (digits + (sp4 + ("\n" + rest))))))))).Panic?
    ensures Beat("beat" + (sp1 + (id + (sp2 + (":" + (sp3 + (digits + (sp4 + ("\n" + rest))))))))) == Error
  {
    BeatLineOf(sp1, id, sp2, sp3, digits, sp4, rest);
  }

  /** `pattern`: `head("pattern")`, times each followed by optional blanks,
      then `/`, a duration and the line end. */
  function Pattern(s: string): (r: PResult<Exp>)
    ensures r.Parsed? ==> SuffixOf(r.rest, s) && |r.rest| < |s|
    ensures r.Parsed? ==> r.value.PatternExp? && IsIdText(r.value.id)
  {
    var h := Head("pattern", s);
    var times := if h.Parsed? then Floats(h.rest) else Failure;
    var slash := if times.Parsed? then Slash(times.rest) else Error;
    var duration := if slash.Parsed? then Float(slash.rest) else Error;
    var e := if duration.Parsed? then End(duration.rest) else Error;
    if !h.Parsed? then Error
    else if !times.Parsed? then Failure
    else if !slash.Parsed? then Error
    else if duration.Failure? then Failure
    else if !duration.Parsed? || !e.Parsed? then Error
    else
      SuffixTrans(times.rest, h.rest, s);
      SuffixTrans(slash.rest, times.rest, s);
      SuffixTrans(duration.rest, slash.rest, s);
      SuffixTrans(e.rest, duration.rest, s);
      Parsed(e.rest, PatternExp(h.value, times.value, duration.value))
  }

  /** `velocities`: `head("velos")`, values each followed by optional
      blanks, then the line end. */
  function Velocities(s: string): (r: PResult<Exp>)
    ensures r.Parsed? ==> SuffixOf(r.rest, s) && |r.rest| < |s|
    ensures r.Parsed? ==> r.value.VelocitiesExp? && IsIdText(r.value.id)
  {
    var h := Head("velos", s);
    var values := if h.Parsed? then Floats(h.rest) else Failure;
    var e := if values.Parsed? then End(values.rest) else Error;
    if !h.Parsed? then Error
    else if !values.Parsed? then Failure
    else if !e.Parsed? then Error
    else
      SuffixTrans(values.rest, h.rest, s);
      SuffixTrans(e.rest, values.rest, s);
      Parsed(e.rest, VelocitiesExp(h.value, values.value))
  }

  /** `notes`: `head("notes")`, names each followed by optional blanks,
      then the line end. */
  function Notes(s: string): (r: PResult<Exp>)
    ensures !r.Failure?
    ensures r.Parsed? ==> SuffixOf(r.rest, s) && |r.rest| < |s|
    ensures r.Parsed? ==> r.value.NotesExp? && IsIdText(r.value.id)
    ensures r.Parsed? ==> forall i :: 0 <= i < |r.value.names| ==> IsAlnumText(r.value.names[i])
  {
    var h := Head("notes", s);
    var names := if h.Parsed? then Names(h.rest) else Parsed(s, []);
    var e := End(names.rest);
    if !h.Parsed? || !e.Parsed? then Error
    else
      SuffixTrans(names.rest, h.rest, s);
      SuffixTrans(e.rest, names.rest, s);
      Parsed(e.rest, NotesExp(h.value, names.value))
  }

  /** A notes line whose list is empty reads as no names. */
  lemma NotesEmpty(sp1: string, id: string, sp2: string, sp3: string, rest: string)
    requires Blanks(sp1) && |sp1| > 0 && IsIdText(id) && Blanks(sp2) && Blanks(sp3)
    ensures Notes("notes" + (sp1 + (id + (sp2 + (":" + (sp3 + ("\n" + rest))))))) == Parsed(rest, NotesExp(id, []))
  {
    HeadOf("notes", sp1, id, sp2, sp3, "\n" + rest);
    EndOf("", rest);
    assert "" + ("\n" + rest) == "\n" + rest;
    NamesNone("\n" + rest);
    var names := Names("\n" + rest);
    assert End(names.rest) == Parsed(rest, ());
  }

  /** `opt(preceded(char('.'), id))`: the next component of a part, or
      nothing, and then nothing is consumed. */
  function DotId(s: string): (r: (string, Option<string>))
    ensures SuffixOf(r.0, s)
    ensures r.1.Some? ==> IsIdText(r.1.value) && s == "." + r.1.value + r.0
    ensures r.1.None? ==> r.0 == s
    ensures r.1.None? <==> !(|s| > 1 && s[0] == '.' && IsIdChar(s[1]))
  {
    if |s| > 0 && s[0] == '.' then
      match Id(s[1..])
      case Parsed(u, id) =>
        assert s == "." + s[1..];
        assert "." + id + u == "." + (id + u);
        (u, Some(id))
      case _ => (s, None)
    else (s, None)
  }

  /** `opt(preceded(delimited(space0, char('*'), space0), float))`: an
      optional multiplier; a `Failure` of `float` is passed on. */
  function Mul(s: string): (r: PResult<Option<real>>)
    ensures !r.Error?
    ensures r.Parsed? ==> SuffixOf(r.rest, s)
    ensures r.Parsed? && r.value.None? ==> r.rest == s
  {
    var star := Punct('*', s);
    if !star.Parsed? then Parsed(s, None)
    else
      match Float(star.rest)
      case Parsed(u, x) =>
        SuffixTrans(u, star.rest, s);
        Parsed(u, Some(x))
      case Error => Parsed(s, None)
      case Failure => Failure
  }

  /** `part`: a pattern identifier, then optionally `.notes` and `.velos`,
      an optional `* multiplier`, and optional blanks. */
  function Part(s: string): (r: PResult<Fragment>)
    ensures r.Parsed? ==> SuffixOf(r.rest, s) && |r.rest| < |s|
    ensures r.Parsed? ==> r.value.PartFragment? && IsIdText(r.value.part.pattern)
    ensures r.Parsed? && r.value.part.notes.Some? ==> IsIdText(r.value.part.notes.value)
    ensures r.Parsed? && r.value.part.velos.Some? ==> IsIdText(r.value.part.velos.value)
    ensures r.Parsed? && r.value.part.notes.None? ==> r.value.part.velos.None?
    ensures r.Error? <==> !(|s| > 0 && IsIdChar(s[0]))
  {
    var p := Id(s);
    if !p.Parsed? then Error
    else
      var (v, notes) := DotId(p.rest);
      var (w, velos) := DotId(v);
      var mul := Mul(w);
      if !mul.Parsed? then Failure
      else
        var x := mul.rest;
        SuffixTrans(v, p.rest, s);
        SuffixTrans(w, v, s);
        SuffixTrans(x, w, s);
        SuffixTrans(Space0(x), x, s);
        Parsed(Space0(x), PartFragment(PartRef(p.value, notes, velos, mul.value)))
  }

  /** `seq_ref`: `$`, an identifier and optional blanks. */
  function SeqRef(s: string): (r: PResult<Fragment>)
    ensures !r.Failure?
    ensures r.Parsed? ==> SuffixOf(r.rest, s) && |r.rest| < |s|
    ensures r.Parsed? ==> r.value.SequenceFragment? && IsIdText(r.value.id)
    ensures r.Parsed? <==> |s| > 1 && s[0] == '$' && IsIdChar(s[1])
  {
    if |s| > 0 && s[0] == '$' then
      match Id(s[1..])
      case Parsed(u, id) =>
        SuffixTrans(Space0(u), u, s);
        Parsed(Space0(u), SequenceFragment(id))
      case _ => Error
    else Error
  }

  lemma SeqRefOf(id: string, sp: string, rest: string)
    requires IsIdText(id) && Blanks(sp) && (|rest| == 0 || !IsSpace(rest[0]))
    requires |sp| > 0 || |rest| == 0 || !IsIdChar(rest[0])
    ensures SeqRef("$" + (id + (sp + rest))) == Parsed(rest, SequenceFragment(id))
  {
    var s := "$" + (id + (sp + rest));
    assert s[1..] == id + (sp + rest);
    IdOf(id, sp + rest);
    Space0Of(sp, rest);
  }

  /** A fragment has identifiers for its pattern, notes, velocities or
      sequence. */
  predicate FragmentIds(f: Fragment) {
    match f
    case PartFragment(p) =>
      IsIdText(p.pattern) && (p.notes.Some? ==> IsIdText(p.notes.value)) && (p.velos.Some? ==> IsIdText(p.velos.value))
    case SequenceFragment(id) => IsIdText(id)
  }

  /** The text starts with a sequence reference or a part. */
  predicate StartsFragment(s: string) {
    (|s| > 0 && IsIdChar(s[0])) || (|s| > 1 && s[0] == '$' && IsIdChar(s[1]))
  }

  lemma NoFragment(s: string)
    requires !SeqRef(s).Parsed? && Part(s).Error?
    ensures !StartsFragment(s)
  {
  }

  /** `many0(alt((seq_ref, part)))`: fragments in the order of the text,
      until neither alternative applies. */
  function Fragments(s: string): (r: PResult<seq<Fragment>>)
    ensures !r.Error?
    ensures r.Parsed? ==> SuffixOf(r.rest, s)
    ensures r.Parsed? ==> forall i :: 0 <= i < |r.value| ==> FragmentIds(r.value[i])
    ensures r.Parsed? ==> !StartsFragment(r.rest)
    decreases |s|
  {
    var first := if SeqRef(s).Parsed? then SeqRef(s) else Part(s);
    if first.Error? then
      NoFragment(s);
      Parsed(s, [])
    else if first.Failure? then Failure
    else
      var next := Fragments(first.rest);
      if !next.Parsed? then Failure
      else
        SuffixTrans(next.rest, first.rest, s);
        ConsFragments(first.value, next.value);
        Parsed(next.rest, [first.value] + next.value)
  }

  lemma ConsFragments(f: Fragment, fs: seq<Fragment>)
    requires FragmentIds(f) && forall i :: 0 <= i < |fs| ==> FragmentIds(fs[i])
    ensures forall i :: 0 <= i < |[f] + fs| ==> FragmentIds(([f] + fs)[i])
  {
    assert forall i :: 0 < i < |[f] + fs| ==> ([f] + fs)[i] == fs[i - 1];
  }

  /** `sequence`: `head("seq")`, an optional `/ beat`, fragments, then the
      line end. */
  function Sequence(s: string): (r: PResult<Exp>)
    ensures r.Parsed? ==> SuffixOf(r.rest, s) && |r.rest| < |s|
    ensures r.Parsed? ==> r.value.SequenceExp? && IsIdText(r.value.id)
    ensures r.Parsed? && r.value.beat.Some? ==> IsIdText(r.value.beat.value)
    ensures r.Parsed? ==> forall i :: 0 <= i < |r.value.fragments| ==> FragmentIds(r.value.fragments[i])
  {
    var h := Head("seq", s);
    if !h.Parsed? then Error
    else
      var (v, beat) := BeatRef(h.rest);
      var fragments := Fragments(v);
      var e := if fragments.Parsed? then End(fragments.rest) else Error;
      if !fragments.Parsed? then Failure
      else if !e.Parsed? then Error
      else
        SuffixTrans(v, h.rest, s);
        SuffixTrans(fragments.rest, v, s);
        SuffixTrans(e.rest, fragments.rest, s);
        Parsed(e.rest, SequenceExp(h.value, beat, fragments.value))
  }

  /** `opt(delimited(slash, id, space0))`: the beat a sequence names, or
      nothing, and then nothing is consumed. */
  function BeatRef(s: string): (r: (string, Option<string>))
    ensures SuffixOf(r.0, s)
    ensures r.1.Some? ==> IsIdText(r.1.value)
    ensures r.1.None? ==> r.0 == s
  {
    var slash := Slash(s);
    var id := if slash.Parsed? then Id(slash.rest) else Error;
    if !id.Parsed? then (s, None)
    else
      SuffixTrans(id.rest, slash.rest, s);
      SuffixTrans(Space0(id.rest), id.rest, s);
      (Space0(id.rest), Some(id.value))
  }
}
