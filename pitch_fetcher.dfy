/** The table from frequency to pitch name of each scale, and the search
    for the pitch nearest a frequency (scale/src/pitch_fetcher.rs). A
    frequency is a real number here: f32 rounding is not modelled. The
    frequency of a pitch comes from the scale's `fetch_frequency`, which
    is not part of this model; it is the parameter `freqOf`. */
module PitchFetchers {
  import opened Wrappers
  import opened Numeric
  import opened Seqs
  import opened Scales

  /** The largest finite `f32`; `f32::MIN` is its negation. */
  const F32_MAX: real := 340282346638528859811704183484516925440.0
  const F32_MIN: real := -F32_MAX

  /** The number of octaves the table covers. */
  const OCTAVES: nat := 11

  datatype FreqPitch = FreqPitch(freq: real, pitch: string)

  datatype PitchFetcher = PitchFetcher(name: string, table: seq<FreqPitch>)

  /** The entry of a pitch. */
  function Entry(s: Scale, freqOf: (Scale, string) -> real, pitch: string): FreqPitch {
    FreqPitch(freqOf(s, pitch), pitch)
  }

  /** The entries of octave `octave`, in the order of the scale's names. */
  function Row(s: Scale, freqOf: (Scale, string) -> real, octave: nat): (r: seq<FreqPitch>)
    ensures |r| == |s.names|
    ensures forall k :: 0 <= k < |r| ==> r[k] == Entry(s, freqOf, s.names[k] + FormatNat(octave))
  {
    seq(|s.names|, k requires 0 <= k < |s.names| => Entry(s, freqOf, s.names[k] + FormatNat(octave)))
  }

  /** The entries of the octaves below `n`, octave by octave. */
  function Rows(s: Scale, freqOf: (Scale, string) -> real, n: nat): (r: seq<FreqPitch>)
    ensures |r| == n * |s.names|
  {
    if n == 0 then [] else Rows(s, freqOf, n - 1) + Row(s, freqOf, n - 1)
  }

  /** The table `PitchFetcher::new` builds: a `MIN` sentinel, every pitch
      of octaves 0 to 10, and a `MAX` sentinel. */
  function Table(s: Scale, freqOf: (Scale, string) -> real): (r: seq<FreqPitch>)
    ensures |r| == OCTAVES * |s.names| + 2
    ensures r[0] == FreqPitch(F32_MIN, "MIN") && r[|r| - 1] == FreqPitch(F32_MAX, "MAX")
  {
    [FreqPitch(F32_MIN, "MIN")] + Rows(s, freqOf, OCTAVES) + [FreqPitch(F32_MAX, "MAX")]
  }

  /** Entry `o * len + k` of the rows is the `k`-th name in octave `o`. */
  lemma {:induction false} RowsAt(s: Scale, freqOf: (Scale, string) -> real, n: nat, o: nat, k: nat)
    requires o < n && k < |s.names|
    ensures o * |s.names| + k < |Rows(s, freqOf, n)|
    ensures Rows(s, freqOf, n)[o * |s.names| + k] == Entry(s, freqOf, s.names[k] + FormatNat(o))
  {
    var len := |s.names|;
    MulLe(o + 1, n, len);
    if o < n - 1 {
      RowsAt(s, freqOf, n - 1, o, k);
      MulLe(o + 1, n - 1, len);
    } else {
      assert o * len + k == |Rows(s, freqOf, n - 1)| + k;
    }
  }

  /** The table's layout: after the `MIN` sentinel comes the `k`-th name
      of octave `o` at position `1 + o * len + k`. */
  lemma {:induction false} TableAt(s: Scale, freqOf: (Scale, string) -> real, o: nat, k: nat)
    requires o < OCTAVES && k < |s.names|
    ensures 1 + o * |s.names| + k < |Table(s, freqOf)| - 1
    ensures Table(s, freqOf)[1 + o * |s.names| + k] == Entry(s, freqOf, s.names[k] + FormatNat(o))
  {
    RowsAt(s, freqOf, OCTAVES, o, k);
  }

  /** The pitch at `1 + o * len + k` is the one numbered `len * (o + 1) + k`:
      position `i` of the table holds pitch number `i - 1 + len`. */
  lemma {:induction false} TablePitchNumber(s: Scale, freqOf: (Scale, string) -> real, o: nat, k: nat)
    requires o < OCTAVES && k < |s.names| && WellFormedNames(s.names)
    requires PitchNumber(|s.names|, o, k) < USIZE_LIMIT
    ensures 1 + o * |s.names| + k < |Table(s, freqOf)|
    ensures var i := 1 + o * |s.names| + k;
      PitchNameToNumber(s, Table(s, freqOf)[i].pitch) == Done(Ok(i - 1 + |s.names|))
  {
    TableAt(s, freqOf, o, k);
    FirstIndexOfAt(s.names, k);
    NameToNumber(s, k, o);
  }

  /** `PitchFetcher::new`. */
  method NewPitchFetcher(s: Scale, freqOf: (Scale, string) -> real) returns (pf: PitchFetcher)
    ensures pf == PitchFetcher(s.name, Table(s, freqOf))
  {
    var table := [FreqPitch(F32_MIN, "MIN")];
    for octave := 0 to OCTAVES
      invariant table == [FreqPitch(F32_MIN, "MIN")] + Rows(s, freqOf, octave)
    {
      table := AddRow(s, freqOf, octave, table);
    }
    table := table + [FreqPitch(F32_MAX, "MAX")];
    pf := PitchFetcher(s.name, table);
  }

  /** The inner loop of `PitchFetcher::new`: one octave pushed. */
  method AddRow(s: Scale, freqOf: (Scale, string) -> real, octave: nat, table: seq<FreqPitch>)
    returns (r: seq<FreqPitch>)
    ensures r == table + Row(s, freqOf, octave)
  {
    r := table;
    for k := 0 to |s.names|
      invariant r == table + Row(s, freqOf, octave)[..k]
    {
      var pitch := s.names[k] + FormatNat(octave);
      assert Row(s, freqOf, octave)[..k + 1] == Row(s, freqOf, octave)[..k] + [Entry(s, freqOf, pitch)];
      r := r + [FreqPitch(freqOf(s, pitch), pitch)];
    }
    assert Row(s, freqOf, octave)[..|s.names|] == Row(s, freqOf, octave);
  }

  // The nearest pitch.

  /** Frequencies strictly increase along the table. */
  predicate Increasing(t: seq<FreqPitch>) {
    forall i, j :: 0 <= i < j < |t| ==> t[i].freq < t[j].freq
  }

  /** The frequency lies between the first and the last entry. */
  predicate Covers(t: seq<FreqPitch>, freq: real) {
    |t| > 0 && t[0].freq <= freq <= t[|t| - 1].freq
  }

  /** The first position whose frequency is at least `freq`, counted
      from `from` (a reference definition, by linear search). */
  function LowerBound(t: seq<FreqPitch>, freq: real, from: nat): (r: nat)
    requires from <= |t|
    ensures from <= r <= |t|
    ensures forall i :: from <= i < r ==> t[i].freq < freq
    ensures r < |t| ==> t[r].freq >= freq
    decreases |t| - from
  {
    if from == |t| || t[from].freq >= freq then from else LowerBound(t, freq, from + 1)
  }

  function Abs(x: real): real { if x < 0.0 then -x else x }

  /** The position of the pitch `fetch_pitch` answers: the entry of the
      exact frequency if there is one, otherwise the nearer of the two
      entries around the frequency, the higher one on a tie. */
  function NearestIndex(t: seq<FreqPitch>, freq: real): (r: nat)
    requires Increasing(t) && Covers(t, freq)
    ensures r < |t|
  {
    var hi := LowerBound(t, freq, 0);
    if t[hi].freq == freq then hi
    else if freq - t[hi - 1].freq < t[hi].freq - freq then hi - 1
    else hi
  }

  /** The answer is an entry no other entry is nearer to, the exact one
      when the frequency is in the table, and the higher one on a tie. */
  lemma {:induction false} NearestIsNearest(t: seq<FreqPitch>, freq: real)
    requires Increasing(t) && Covers(t, freq)
    ensures var n := NearestIndex(t, freq);
      (forall i :: 0 <= i < |t| ==> Abs(t[n].freq - freq) <= Abs(t[i].freq - freq))
      && ((exists i :: 0 <= i < |t| && t[i].freq == freq) ==> t[n].freq == freq)
      && (forall i :: 0 <= i < |t| && i != n && Abs(t[i].freq - freq) == Abs(t[n].freq - freq) ==> t[i].freq < t[n].freq)
  {
    var hi := LowerBound(t, freq, 0);
    var n := NearestIndex(t, freq);
    if t[hi].freq != freq {
      assert hi > 0;
      forall i | 0 <= i < |t|
        ensures Abs(t[n].freq - freq) <= Abs(t[i].freq - freq)
      {
        if i < hi - 1 {
          assert t[i].freq < t[hi - 1].freq;
        } else if i > hi {
          assert t[hi].freq < t[i].freq;
        }
      }
      forall i | 0 <= i < |t| && i != n && Abs(t[i].freq - freq) == Abs(t[n].freq - freq)
        ensures t[i].freq < t[n].freq
      {
        if i < hi - 1 {
          assert t[i].freq < t[hi - 1].freq;
        }
      }
    } else {
      forall i | 0 <= i < |t| && i != n && Abs(t[i].freq - freq) == Abs(t[n].freq - freq)
        ensures t[i].freq < t[n].freq
      {
        assert t[i].freq != t[n].freq;
      }
    }
  }

  /** `fetch_pitch`: a binary search over the table with `usize` bounds.
      `right = m - 1` below position 0 and reading past the table's end
      panic. On an increasing table that covers the frequency (which the
      sentinels make every table of `new` do, for every finite
      frequency) it answers the nearest pitch. */
  method FetchPitch(pf: PitchFetcher, freq: real) returns (r: Run<Result<string>>)
    ensures r.Done? ==> r.value.Ok? && exists i :: 0 <= i < |pf.table| && r.value.value == pf.table[i].pitch
    ensures Increasing(pf.table) && Covers(pf.table, freq) ==>
      r == Done(Ok(pf.table[NearestIndex(pf.table, freq)].pitch))
  {
    var t := pf.table;
    if |t| == 0 {
      return Panic("attempt to subtract with overflow");
    }
    ghost var good := Increasing(t) && Covers(t, freq);
    var left: int := 0;
    var right: int := |t| - 1;
    var m: int := right / 2;
    while left <= right
      invariant 0 <= left <= right + 1 && 0 <= right < |t| && m == (left + right) / 2
      invariant good ==> forall i :: 0 <= i < left ==> t[i].freq < freq
      invariant good ==> forall i :: right < i < |t| ==> t[i].freq > freq
      decreases right - left + 1
    {
      if t[m].freq == freq {
        if good {
          ExactIsNearest(t, freq, m);
        }
        return Done(Ok(t[m].pitch));
      } else if t[m].freq > freq {
        if m == 0 {
          return Panic("attempt to subtract with overflow");
        }
        if good {
          AboveFromHere(t, freq, m);
        }
        right := m - 1;
      } else {
        if good {
          BelowUpToHere(t, freq, m);
        }
        left := m + 1;
      }
      m := (left + right) / 2;
    }
    if m + 1 >= |t| {
      return Panic("index out of bounds");
    }
    if good {
      BracketIsNearest(t, freq, m);
    }
    if freq - t[m].freq < t[m + 1].freq - freq {
      return Done(Ok(t[m].pitch));
    } else {
      return Done(Ok(t[m + 1].pitch));
    }
  }

  lemma {:induction false} AboveFromHere(t: seq<FreqPitch>, freq: real, m: nat)
    requires Increasing(t) && m < |t| && t[m].freq > freq
    ensures forall i :: m <= i < |t| ==> t[i].freq > freq
  {
    forall i | m < i < |t| ensures t[i].freq > freq {
      assert t[m].freq < t[i].freq;
    }
  }

  lemma {:induction false} BelowUpToHere(t: seq<FreqPitch>, freq: real, m: nat)
    requires Increasing(t) && m < |t| && t[m].freq < freq
    ensures forall i :: 0 <= i <= m ==> t[i].freq < freq
  {
    forall i | 0 <= i < m ensures t[i].freq < freq {
      assert t[i].freq < t[m].freq;
    }
  }

  /** An entry of exactly the frequency is the nearest. */
  lemma {:induction false} ExactIsNearest(t: seq<FreqPitch>, freq: real, m: nat)
    requires Increasing(t) && Covers(t, freq) && m < |t| && t[m].freq == freq
    ensures NearestIndex(t, freq) == m
  {
  }

  /** Two neighbouring entries around the frequency decide the nearest. */
  lemma {:induction false} BracketIsNearest(t: seq<FreqPitch>, freq: real, m: nat)
    requires Increasing(t) && Covers(t, freq) && m + 1 < |t|
    requires t[m].freq < freq < t[m + 1].freq
    ensures NearestIndex(t, freq) == if freq - t[m].freq < t[m + 1].freq - freq then m else m + 1
  {
  }

  /** The sentinels cover every finite frequency: a table of `new` whose
      pitch frequencies increase and are finite is searched without a panic. */
  lemma {:induction false} TableCovers(s: Scale, freqOf: (Scale, string) -> real, freq: real)
    requires F32_MIN <= freq <= F32_MAX
    ensures Covers(Table(s, freqOf), freq)
  {
  }

  // The collection of fetchers, one per scale of the scale collection.

  /** A fetcher per scale of `scales`, under the scale's key. */
  function Fetchers(scales: map<string, Scale>, freqOf: (Scale, string) -> real): (r: map<string, PitchFetcher>)
    ensures r.Keys == scales.Keys
    ensures forall k :: k in r ==> r[k].name == k && r[k].table == Table(scales[k], freqOf)
  {
    map k | k in scales :: PitchFetcher(k, Table(scales[k], freqOf))
  }

  /** The fetchers `Collection::new` builds. */
  function FetcherCollection(freqOf: (Scale, string) -> real): (r: map<string, PitchFetcher>)
    ensures r.Keys == ScaleCollection().Keys
    ensures forall k :: k in r ==> r[k].name == k && r[k].table == Table(ScaleCollection()[k], freqOf)
  {
    Fetchers(ScaleCollection(), freqOf)
  }

  /** `Collection::new`. */
  method NewCollection(freqOf: (Scale, string) -> real) returns (c: map<string, PitchFetcher>)
    ensures c == FetcherCollection(freqOf)
  {
    c := BuildFetchers(ScaleCollection(), freqOf);
  }

  /** The loop of `Collection::new`: each scale's fetcher inserted under the
      scale's name, which is its key. */
  method BuildFetchers(scales: map<string, Scale>, freqOf: (Scale, string) -> real) returns (c: map<string, PitchFetcher>)
    requires forall k :: k in scales ==> scales[k].name == k
    ensures c == Fetchers(scales, freqOf)
  {
    var todo := scales.Keys;
    c := map[];
    while todo != {}
      invariant todo <= scales.Keys
      invariant c.Keys == scales.Keys - todo
      invariant forall k :: k in c ==> c[k] == PitchFetcher(k, Table(scales[k], freqOf))
      decreases todo
    {
      var key :| key in todo;
      var pf := NewPitchFetcher(scales[key], freqOf);
      c := c[scales[key].name := pf];
      todo := todo - {key};
    }
  }

  /** `Collection::fetch`. */
  function FetchFetcher(c: map<string, PitchFetcher>, name: string): (r: Result<PitchFetcher>)
    ensures r.Ok? <==> name in c
    ensures r.Ok? ==> r.value == c[name]
    ensures r.Err? ==> r.msg == ScaleUnknown(name)
  {
    if name in c then Ok(c[name]) else Err(ScaleUnknown(name))
  }

  /** `Collection::default`: the fetcher of the default scale; the
      `unwrap` panics when there is none. */
  function DefaultFetcher(c: map<string, PitchFetcher>): (r: Run<PitchFetcher>)
    ensures r.Done? <==> DEFAULT in c
    ensures r.Done? ==> r.value == c[DEFAULT]
  {
    if DEFAULT in c then Done(c[DEFAULT]) else Panic("called `Option::unwrap()` on a `None` value")
  }

  /** The default fetcher is the 12-tone one, and every scale of the scale
      collection, and no other, has a fetcher. */
  lemma {:induction false} DefaultIsTwelveTone(freqOf: (Scale, string) -> real)
    ensures DefaultFetcher(FetcherCollection(freqOf))
      == Done(PitchFetcher("12ET", Table(Scale("12ET", ET12_NAMES), freqOf)))
    ensures forall name :: FetchFetcher(FetcherCollection(freqOf), name).Ok? <==> FetchScale(ScaleCollection(), name).Ok?
  {
    var scales := ScaleCollection();
    assert scales[DEFAULT] == Scale("12ET", ET12_NAMES);
    assert FetcherCollection(freqOf)[DEFAULT] == PitchFetcher(DEFAULT, Table(scales[DEFAULT], freqOf));
  }
}
