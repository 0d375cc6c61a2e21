/** The ordering Rust gives `String`s and pairs of them (lexicographic,
    character by character: UTF-8 byte order agrees with code-point order),
    and the `sort` of a vector under it, as a function on values. */
module Sorting {

  /** `a <= b` on strings: a prefix comes first, otherwise the first
      differing character decides. */
  predicate StrLe(a: string, b: string)
    decreases |a|
  {
    |a| == 0 || (|b| > 0 && (a[0] < b[0] || (a[0] == b[0] && StrLe(a[1..], b[1..]))))
  }

  predicate StrLt(a: string, b: string) { StrLe(a, b) && a != b }

  lemma {:induction false} StrLeRefl(a: string)
    ensures StrLe(a, a)
    decreases |a|
  {
    if |a| > 0 {
      StrLeRefl(a[1..]);
    }
  }

  lemma {:induction false} StrLeTotal(a: string, b: string)
    ensures StrLe(a, b) || StrLe(b, a)
    decreases |a|
  {
    if |a| > 0 && |b| > 0 && a[0] == b[0] {
      StrLeTotal(a[1..], b[1..]);
    }
  }

  lemma {:induction false} StrLeAntisymmetric(a: string, b: string)
    requires StrLe(a, b) && StrLe(b, a)
    ensures a == b
    decreases |a|
  {
    if |a| > 0 {
      StrLeAntisymmetric(a[1..], b[1..]);
      assert a == [a[0]] + a[1..] && b == [b[0]] + b[1..];
    }
  }

  lemma {:induction false} StrLeTransitive(a: string, b: string, c: string)
    requires StrLe(a, b) && StrLe(b, c)
    ensures StrLe(a, c)
    decreases |a|
  {
    if |a| > 0 && a[0] == b[0] && b[0] == c[0] {
      StrLeTransitive(a[1..], b[1..], c[1..]);
    }
  }

  /** Tuple order on `(String, String)`: the first component decides, the
      second breaks a tie. */
  predicate PairLe(p: (string, string), q: (string, string)) {
    StrLt(p.0, q.0) || (p.0 == q.0 && StrLe(p.1, q.1))
  }

  lemma PairLeTotal(p: (string, string), q: (string, string))
    ensures PairLe(p, q) || PairLe(q, p)
  {
    StrLeTotal(p.0, q.0);
    StrLeTotal(p.1, q.1);
  }

  lemma PairLeTransitive(p: (string, string), q: (string, string), r: (string, string))
    requires PairLe(p, q) && PairLe(q, r)
    ensures PairLe(p, r)
  {
    if p.0 == q.0 && q.0 == r.0 {
      StrLeTransitive(p.1, q.1, r.1);
    } else if p.0 != q.0 && q.0 != r.0 {
      StrLeTransitive(p.0, q.0, r.0);
      if p.0 == r.0 {
        StrLeAntisymmetric(p.0, q.0);
      }
    }
  }

  lemma PairLeAntisymmetric(p: (string, string), q: (string, string))
    requires PairLe(p, q) && PairLe(q, p)
    ensures p == q
  {
    if p.0 == q.0 {
      StrLeAntisymmetric(p.1, q.1);
    } else {
      StrLeAntisymmetric(p.0, q.0);
    }
  }

  /** `s` is in non-decreasing order of `key`. */
  predicate SortedBy<T>(s: seq<T>, key: T -> (string, string)) {
    forall i, j :: 0 <= i < j < |s| ==> PairLe(key(s[i]), key(s[j]))
  }

  function Insert<T>(x: T, s: seq<T>, key: T -> (string, string)): (r: seq<T>)
    ensures multiset(r) == multiset(s) + multiset{x}
  {
    if |s| == 0 then [x]
    else if PairLe(key(x), key(s[0])) then [x] + s
    else
      assert s == [s[0]] + s[1..];
      [s[0]] + Insert(x, s[1..], key)
  }

  /** Every element of `s` has a key at least `k`. */
  predicate LeAll<T>(k: (string, string), s: seq<T>, key: T -> (string, string)) {
    forall j :: 0 <= j < |s| ==> PairLe(k, key(s[j]))
  }

  lemma SortedCons<T>(a: T, t: seq<T>, key: T -> (string, string))
    requires SortedBy(t, key) && LeAll(key(a), t, key)
    ensures SortedBy([a] + t, key)
  {
    forall i, j | 0 <= i < j < |[a] + t|
      ensures PairLe(key(([a] + t)[i]), key(([a] + t)[j]))
    {
      if i > 0 {
        assert ([a] + t)[i] == t[i - 1];
      }
      assert ([a] + t)[j] == t[j - 1];
    }
  }

  lemma {:induction false} InsertLeAll<T>(k: (string, string), x: T, s: seq<T>, key: T -> (string, string))
    requires LeAll(k, s, key) && PairLe(k, key(x))
    ensures LeAll(k, Insert(x, s, key), key)
  {
    if |s| > 0 && !PairLe(key(x), key(s[0])) {
      assert LeAll(k, s[1..], key) by {
        forall j | 0 <= j < |s[1..]|
          ensures PairLe(k, key(s[1..][j]))
        {
          assert s[1..][j] == s[j + 1];
        }
      }
      InsertLeAll(k, x, s[1..], key);
      var t := Insert(x, s[1..], key);
      forall j | 0 <= j < |[s[0]] + t|
        ensures PairLe(k, key(([s[0]] + t)[j]))
      {
        if j > 0 {
          assert ([s[0]] + t)[j] == t[j - 1];
        }
      }
    } else if |s| > 0 {
      forall j | 0 <= j < |[x] + s|
        ensures PairLe(k, key(([x] + s)[j]))
      {
        if j > 0 {
          assert ([x] + s)[j] == s[j - 1];
        }
      }
    }
  }

  lemma {:induction false} InsertSorted<T>(x: T, s: seq<T>, key: T -> (string, string))
    requires SortedBy(s, key)
    ensures SortedBy(Insert(x, s, key), key)
  {
    if |s| > 0 {
      if PairLe(key(x), key(s[0])) {
        forall j | 0 <= j < |s|
          ensures PairLe(key(x), key(s[j]))
        {
          if j > 0 {
            PairLeTransitive(key(x), key(s[0]), key(s[j]));
          }
        }
        SortedCons(x, s, key);
      } else {
        PairLeTotal(key(x), key(s[0]));
        assert SortedBy(s[1..], key) by {
          forall i, j | 0 <= i < j < |s[1..]|
            ensures PairLe(key(s[1..][i]), key(s[1..][j]))
          {
            assert s[1..][i] == s[i + 1] && s[1..][j] == s[j + 1];
          }
        }
        assert LeAll(key(s[0]), s[1..], key) by {
          forall j | 0 <= j < |s[1..]|
            ensures PairLe(key(s[0]), key(s[1..][j]))
          {
            assert s[1..][j] == s[j + 1];
          }
        }
        InsertSorted(x, s[1..], key);
        InsertLeAll(key(s[0]), x, s[1..], key);
        SortedCons(s[0], Insert(x, s[1..], key), key);
      }
    } else {
      assert Insert(x, s, key) == [x];
    }
  }

  /** `sort`: the elements of `s` in non-decreasing order of `key`. */
  function SortBy<T>(s: seq<T>, key: T -> (string, string)): (r: seq<T>)
    ensures SortedBy(r, key)
    ensures multiset(r) == multiset(s)
  {
    if |s| == 0 then []
    else
      var t := SortBy(s[1..], key);
      InsertSorted(s[0], t, key);
      assert s == [s[0]] + s[1..];
      Insert(s[0], t, key)
  }
}
