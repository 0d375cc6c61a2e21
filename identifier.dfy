/** Talker identifiers: an id taken from a counter and a display name
    derived from the requested name, the model and the id
    (talker/src/identifier.rs, granode/src/identifier.rs,
    plugin/src/identifier.rs). The talker and granode crates each keep a
    global atomic counter; the model makes each of them an `IdCounter`
    object passed to the operations that use it. The plugin crate counts
    with a caller-supplied `&mut u32`, which is an `IdCounter` as well. */
module Identifiers {
  import opened Wrappers
  import opened Numeric
  import opened Strs

  /** The name of a named talker. A name ending with `(` or `[` is
      completed with the model (when there is one), the id and the
      matching closer; any other name is kept. */
  function SuffixedName(name: string, model: string, id: nat): (r: string)
    requires |name| > 0
    ensures StartsWith(r, name)
    ensures name[|name| - 1] != '(' && name[|name| - 1] != '[' ==> r == name
    ensures name[|name| - 1] == '(' ==> EndsWith(r, FormatNat(id) + ")")
    ensures name[|name| - 1] == '[' ==> EndsWith(r, FormatNat(id) + "]")
    ensures name[|name| - 1] in "([" && |model| > 0 ==> StartsWith(r[|name|..], model + " ")
  {
    var last := name[|name| - 1];
    if last == '(' || last == '[' then
      var closer := if last == '(' then ")" else "]";
      var middle := if |model| == 0 then "" else model + " ";
      var r := name + middle + (FormatNat(id) + closer);
      assert r[..|name|] == name;
      assert r[|r| - |FormatNat(id) + closer|..] == FormatNat(id) + closer;
      assert r[|name|..][..|middle|] == middle;
      r
    else name
  }

  /** The name `Identifier::new` gives in the talker and granode crates. An
      empty name becomes the id, after the model when there is one. */
  function TalkerName(name: string, model: string, id: nat): (r: string)
    ensures |r| > 0
    ensures |name| == 0 && |model| == 0 ==> r == FormatNat(id)
    ensures |name| == 0 && |model| > 0 ==> StartsWith(r, model + " ") && r[|model| + 1..] == FormatNat(id)
    ensures |name| > 0 ==> r == SuffixedName(name, model, id)
  {
    if |name| == 0 then
      if |model| == 0 then FormatNat(id)
      else
        var r := model + " " + FormatNat(id);
        assert r[..|model| + 1] == model + " ";
        r
    else SuffixedName(name, model, id)
  }

  /** The name the plugin crate's `Identifier::new` gives. Unlike the
      talker crate, an empty name without a kind stays empty. */
  function PluginName(name: string, kind: string, id: nat): (r: string)
    ensures |name| == 0 && |kind| == 0 ==> r == ""
    ensures |name| > 0 || |kind| > 0 ==> r == TalkerName(name, kind, id)
  {
    if |name| == 0 && |kind| == 0 then "" else TalkerName(name, kind, id)
  }

  /** A `u32` id counter, starting at 1. */
  class IdCounter {
    var next: nat

    ghost predicate Valid() reads this {
      next < U32_LIMIT
    }

    constructor ()
      ensures Valid() && next == 1
    {
      next := 1;
    }

    /** `initialize_id_count`. */
    method Initialize()
      modifies this
      ensures Valid() && next == 1
    {
      next := 1;
    }

    /** `fetch_add(1)` on the atomic counter: the current value, and the
        counter moves on by one, wrapping at 2^32 as atomics do. */
    method FetchAdd() returns (id: nat)
      requires Valid()
      modifies this
      ensures Valid() && id == old(next)
      ensures next == (old(next) + 1) % U32_LIMIT
    {
      id := next;
      next := (next + 1) % U32_LIMIT;
    }

    /** `inc_count` of the plugin crate: the counter is incremented and its
        new value returned, so the first id is the old count plus one. A
        plain `u32` addition past 2^32 - 1 panics. */
    method Inc() returns (r: Run<nat>)
      requires Valid()
      modifies this
      ensures Valid()
      ensures old(next) + 1 < U32_LIMIT ==> next == old(next) + 1 && r == Done(next)
      ensures old(next) + 1 == U32_LIMIT ==> r.Panic? && next == old(next)
    {
      if next + 1 == U32_LIMIT {
        return Panic("attempt to add with overflow");
      }
      next := next + 1;
      r := Done(next);
    }
  }

  /** The identifier of the talker and granode crates. */
  class Identifier {
    var id: nat
    var name: string

    ghost predicate Valid() reads this {
      id < U32_LIMIT
    }

    /** `Identifier::new`: takes the counter's value as id and moves the
        counter on. */
    constructor (name: string, model: string, count: IdCounter)
      requires count.Valid()
      modifies count
      ensures Valid() && count.Valid()
      ensures id == old(count.next) && count.next == (old(count.next) + 1) % U32_LIMIT
      ensures this.name == TalkerName(name, model, id)
    {
      var i := count.FetchAdd();
      id := i;
      this.name := TalkerName(name, model, i);
    }

    /** `set_id`: stores the id and raises the counter past it, so that ids
        handed out later are greater. `id + 1` for the largest `u32`
        panics. */
    method SetId(newId: nat, count: IdCounter) returns (r: Run<()>)
      requires newId < U32_LIMIT && count.Valid()
      requires this != count as object
      modifies this, count
      ensures Valid() && count.Valid() && id == newId && name == old(name)
      ensures r.Done? ==> count.next > newId && count.next >= old(count.next)
      ensures r.Done? && newId < old(count.next) ==> count.next == old(count.next)
      ensures r.Panic? <==> newId >= old(count.next) && newId + 1 == U32_LIMIT
    {
      id := newId;
      if newId >= count.next {
        if newId + 1 == U32_LIMIT {
          return Panic("attempt to add with overflow");
        }
        count.next := newId + 1;
      }
      r := Done(());
    }

    method SetName(newName: string)
      modifies this
      ensures name == newName && id == old(id)
      ensures forall other :: DependsOf(other) <==> old(DependsOf(other))
    {
      name := newName;
    }

    /** `depends_of`: an identifier depends on its own id and on nothing
        else, whatever its name. */
    function DependsOf(other: nat): (r: bool)
      reads this
      ensures r <==> other == id
    {
      id == other
    }
  }

  /** The identifier of the plugin crate. */
  class PluginIdentifier {
    var id: nat
    var name: string

    constructor Init(id: nat, name: string)
      ensures this.id == id && this.name == name
    {
      this.id := id;
      this.name := name;
    }

    method SetName(newName: string)
      modifies this
      ensures name == newName && id == old(id)
      ensures forall other :: DependsOf(other) <==> old(DependsOf(other))
    {
      name := newName;
    }

    /** `depends_of`: an identifier depends on its own id and on nothing
        else, whatever its name. */
    function DependsOf(other: nat): (r: bool)
      reads this
      ensures r <==> other == id
    {
      id == other
    }
  }

  /** The plugin crate's `Identifier::new`: the id is the incremented count. */
  method NewPluginIdentifier(name: string, kind: string, count: IdCounter) returns (r: Run<PluginIdentifier>)
    requires count.Valid()
    modifies count
    ensures count.Valid()
    ensures old(count.next) + 1 < U32_LIMIT ==> (r.Done? && fresh(r.value)
      && r.value.id == old(count.next) + 1 == count.next && r.value.name == PluginName(name, kind, r.value.id))
    ensures old(count.next) + 1 == U32_LIMIT ==> r.Panic?
  {
    var i := count.Inc();
    if i.Panic? {
      return Panic(i.reason);
    }
    var ident := new PluginIdentifier.Init(i.value, PluginName(name, kind, i.value));
    r := Done(ident);
  }
}
