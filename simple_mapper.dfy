/** `SimpleMapper` (lv2/src/urid/simple_mapper.rs): URIs mapped to ids in
    first-come order; the id of the URI at index `i` is `i + 1`. The
    `UnsafeCell` is a field the methods assign. */
module SimpleMappers {
  import opened Wrappers
  import opened Numeric

  /** The first index of `u`. */
  function IndexOf(uris: seq<string>, u: string): (r: Option<nat>)
    ensures r.Some? ==> r.value < |uris| && uris[r.value] == u && u !in uris[..r.value]
    ensures r.None? <==> u !in uris
  {
    if |uris| == 0 then None
    else if uris[|uris| - 1] == u && IndexOf(uris[..|uris| - 1], u).None? then Some(|uris| - 1)
    else
      var r := IndexOf(uris[..|uris| - 1], u);
      assert uris == uris[..|uris| - 1] + [uris[|uris| - 1]];
      if r.Some? then assert uris[..r.value] == uris[..|uris| - 1][..r.value]; r else None
  }

  /** No URI is stored twice. */
  predicate Distinct(uris: seq<string>) {
    forall i, j :: 0 <= i < j < |uris| ==> uris[i] != uris[j]
  }

  /** The `NonZeroU32` of a count `as u32`: zero, which only a count of a
      multiple of 2^32 gives, panics at `unwrap`. */
  function NonZeroId(n: nat): (r: Run<nat>)
    ensures 0 < n < U32_LIMIT ==> r == Done(n)
    ensures r.Done? ==> 1 <= r.value < U32_LIMIT
  {
    var id: nat := n % U32_LIMIT;
    if id == 0 then Panic("called `Option::unwrap()` on a `None` value") else Done(id)
  }

  /** `map` on the list of URIs: the id of a URI already mapped, or the
      URI appended and the new length as its id. */
  function Mapped(uris: seq<string>, uri: string): (r: (Run<nat>, seq<string>))
    ensures uri in uris ==> r.1 == uris
    ensures uri !in uris ==> r.1 == uris + [uri]
    ensures Distinct(uris) ==> Distinct(r.1)
    ensures |r.1| < U32_LIMIT ==> r.0.Done? && 1 <= r.0.value <= |r.1| && r.1[r.0.value - 1] == uri
    ensures r.0.Done? ==> r.0.value >= 1
  {
    var index := IndexOf(uris, uri);
    if index.Some? then (NonZeroId(index.value + 1), uris)
    else (NonZeroId(|uris| + 1), uris + [uri])
  }

  /** `unmap` on the list of URIs. */
  function Unmapped(uris: seq<string>, id: nat): (r: Option<string>)
    requires 1 <= id < U32_LIMIT
    ensures r.Some? <==> id <= |uris|
    ensures r.Some? ==> r.value == uris[id - 1]
  {
    if id - 1 < |uris| then Some(uris[id - 1]) else None
  }

  /** Mapping a URI a second time gives the same id and changes nothing. */
  lemma {:induction false} MapTwice(uris: seq<string>, uri: string)
    ensures Mapped(Mapped(uris, uri).1, uri) == Mapped(uris, uri)
  {
    var us := Mapped(uris, uri).1;
    assert uri in us;
    if uri !in uris {
      assert IndexOf(us, uri) == Some(|uris|) by {
        assert us[|uris|] == uri && uri !in us[..|uris|] by { assert us[..|uris|] == uris; }
        IndexOfFirst(us, uri, |uris|);
      }
    }
  }

  /** An index holding `u` with no `u` before it is the first index. */
  lemma {:induction false} IndexOfFirst(uris: seq<string>, u: string, i: nat)
    requires i < |uris| && uris[i] == u && u !in uris[..i]
    ensures IndexOf(uris, u) == Some(i)
  {
  }

  /** While fewer than 2^32 URIs are mapped, the id a URI maps to unmaps
      to the URI. */
  lemma {:induction false} UnmapOfMap(uris: seq<string>, uri: string)
    requires |Mapped(uris, uri).1| < U32_LIMIT
    ensures var (id, us) := Mapped(uris, uri); id.Done? && id.value < U32_LIMIT && Unmapped(us, id.value) == Some(uri)
  {
  }

  class SimpleMapper {
    var uris: seq<string>

    /** `new`: no URI mapped. */
    constructor ()
      ensures uris == []
    {
      uris := [];
    }

    /** `map`, with the `UnsafeCell` as the field it updates. */
    method Map(uri: string) returns (r: Run<nat>)
      modifies this
      ensures (r, uris) == Mapped(old(uris), uri)
    {
      var index := IndexOf(uris, uri);
      if index.Some? {
        r := NonZeroId(index.value + 1);
      } else {
        uris := uris + [uri];
        r := NonZeroId(|uris|);
      }
    }

    /** `unmap`. */
    function Unmap(id: nat): (r: Option<string>)
      requires 1 <= id < U32_LIMIT
      reads this
      ensures r == Unmapped(uris, id)
    {
      if id - 1 < |uris| then Some(uris[id - 1]) else None
    }
  }
}
