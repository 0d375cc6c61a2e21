/** `UridMapFeatureNativeImpl` (session/src/lv2_resources.rs): the host's
    URI-to-id map. The lock is left out: `map` is one atomic step. The
    counter is an `AtomicU32`, whose `fetch_add` wraps. */
module UridMaps {
  import opened Numeric

  /** Every stored id is between 1 and the counter, excluded, and no two
      URIs share one. */
  predicate Fresh(m: map<string, nat>, nextId: nat) {
    1 <= nextId < U32_LIMIT
    && (forall u :: u in m ==> 1 <= m[u] < nextId)
    && (forall u, v :: u in m && v in m && u != v ==> m[u] != m[v])
  }

  /** `map` on the stored pairs and the counter: a stored URI gives its id
      and changes nothing; a new URI gets the counter value, is stored with
      it, and the counter moves on by one. */
  function Mapped(m: map<string, nat>, nextId: nat, uri: string): (r: (nat, map<string, nat>, nat))
    requires nextId < U32_LIMIT
    ensures uri in m ==> r == (m[uri], m, nextId)
    ensures uri !in m ==> r.0 == nextId && r.1 == m[uri := nextId] && r.2 == (nextId + 1) % U32_LIMIT
    ensures r.1.Keys == m.Keys + {uri} && r.1[uri] == r.0
    ensures r.2 < U32_LIMIT
  {
    if uri in m then (m[uri], m, nextId)
    else (nextId, m[uri := nextId], (nextId + 1) % U32_LIMIT)
  }

  /** Until the counter reaches its last value, mapping keeps the ids
      fresh, so distinct URIs always get distinct ids. */
  lemma {:induction false} MappedKeepsFresh(m: map<string, nat>, nextId: nat, uri: string)
    requires Fresh(m, nextId) && nextId + 1 < U32_LIMIT
    ensures var (_, m', n') := Mapped(m, nextId, uri); Fresh(m', n')
  {
    var (id, m', n') := Mapped(m, nextId, uri);
    if uri !in m {
      forall u, v | u in m' && v in m' && u != v ensures m'[u] != m'[v] {
        if u == uri || v == uri {
          assert m'[u] == nextId || m'[v] == nextId;
        }
      }
    }
  }

  /** Two mapped URIs get the same id only when they are the same URI. */
  lemma {:induction false} MappedDistinct(m: map<string, nat>, nextId: nat, u: string, v: string)
    requires Fresh(m, nextId) && nextId + 2 < U32_LIMIT
    ensures var (idU, m1, n1) := Mapped(m, nextId, u);
      var (idV, m2, n2) := Mapped(m1, n1, v);
      idU == idV ==> u == v
  {
    MappedKeepsFresh(m, nextId, u);
    var (idU, m1, n1) := Mapped(m, nextId, u);
    assert u in m1 && m1[u] == idU;
    if u != v && v !in m1 {
      assert idU < n1;
    }
  }

  /** At its last value the counter wraps: the next new URI gets id 0,
      which is no valid id. */
  lemma {:induction false} CounterWraps(m: map<string, nat>, uri: string)
    requires uri !in m
    ensures Mapped(m, U32_LIMIT - 1, uri).2 == 0
  {
  }

  class UridMapNative {
    var ids: map<string, nat>
    var nextId: nat

    ghost predicate Valid()
      reads this
    {
      nextId < U32_LIMIT
    }

    /** `default`: nothing mapped, counter at 1. */
    constructor ()
      ensures Valid() && ids == map[] && nextId == 1 && Fresh(ids, nextId)
    {
      ids := map[];
      nextId := 1;
    }

    /** `map`. */
    method Map(uri: string) returns (id: nat)
      requires Valid()
      modifies this
      ensures Valid()
      ensures (id, ids, nextId) == Mapped(old(ids), old(nextId), uri)
    {
      if uri in ids {
        return ids[uri];
      }
      id := nextId;
      nextId := (nextId + 1) % U32_LIMIT;
      ids := ids[uri := id];
    }
  }
}
