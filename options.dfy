/** The LV2 options feature of the host (luil/src/features/options.rs).
    The options array ends with an empty option, which marks its end for
    the plug-in. Each value lives in a box kept in one of three maps, and
    an option points at its box; boxes are numbered in allocation order.
    The URID map is a function parameter: it gives a URI its id and is
    not modelled here. */
module Lv2Options {
  import opened Wrappers
  import opened Numeric

  type UridOf = string -> nat

  /** The value field of an option: null or the address of a box. */
  datatype ValuePtr = Null | Ptr(addr: nat)

  datatype OptionRecord = OptionRecord(context: nat, subject: nat, key: nat, size: nat, type_: nat, value: ValuePtr)

  const EMPTY_OPTION: OptionRecord := OptionRecord(0, 0, 0, 0, 0, Null)

  datatype Box<T> = Box(addr: nat, value: T)

  /** What the fields of `Options` hold. */
  datatype OptionsState = OptionsState(
    data: seq<OptionRecord>,
    atomFloatUrid: nat, floatValues: map<nat, Box<real>>,
    atomIntUrid: nat, intValues: map<nat, Box<int>>,
    atomStringUrid: nat, stringValues: map<nat, Box<string>>,
    nextAddr: nat)

  const ATOM_FLOAT_URI: string := "http://lv2plug.in/ns/ext/atom#Float"
  const ATOM_INT_URI: string := "http://lv2plug.in/ns/ext/atom#Int"
  const ATOM_STRING_URI: string := "http://lv2plug.in/ns/ext/atom#String"

  /** The options array, the empty option last. */
  predicate Terminated(data: seq<OptionRecord>) {
    |data| >= 1 && data[|data| - 1] == EMPTY_OPTION
  }

  /** `new`: the array holds only the empty option, and no value is kept. */
  function NewOptions(urid: UridOf): (r: OptionsState)
    ensures r.data == [EMPTY_OPTION] && Terminated(r.data)
    ensures r.floatValues == map[] && r.intValues == map[] && r.stringValues == map[]
  {
    OptionsState([EMPTY_OPTION], urid(ATOM_FLOAT_URI), map[], urid(ATOM_INT_URI), map[], urid(ATOM_STRING_URI), map[], 0)
  }

  /** `push_option`: the last element popped (there is none in an empty
      array), then the option, then a new empty option. */
  function PushOption(data: seq<OptionRecord>, option: OptionRecord): (r: seq<OptionRecord>)
    ensures Terminated(r)
    ensures Terminated(data) ==> |r| == |data| + 1 && r[..|data| - 1] == data[..|data| - 1] && r[|data| - 1] == option
  {
    var popped := if |data| == 0 then [] else data[..|data| - 1];
    popped + [option] + [EMPTY_OPTION]
  }

  /** The options of a terminated array, in order: pushing appends. */
  lemma {:induction false} PushOptionAppends(data: seq<OptionRecord>, option: OptionRecord)
    requires Terminated(data)
    ensures PushOption(data, option) == (data[..|data| - 1] + [option]) + [EMPTY_OPTION]
  {
  }

  /** `CStr::from_bytes_with_nul(uri).unwrap()`: the URI without its one
      terminating NUL; any other form panics. */
  function CStrOf(uri: string): (r: Run<string>)
    ensures r.Done? <==> |uri| >= 1 && uri[|uri| - 1] == '\0' && '\0' !in uri[..|uri| - 1]
    ensures r.Done? ==> uri == r.value + "\0"
  {
    if |uri| >= 1 && uri[|uri| - 1] == '\0' && '\0' !in uri[..|uri| - 1] then Done(uri[..|uri| - 1]) else Panic("called `Result::unwrap()` on an `Err` value")
  }

  /** The number of bytes of a text in UTF-8. */
  function Utf8Len(s: string): (r: nat)
    ensures r >= |s|
  {
    if |s| == 0 then 0
    else
      var c := s[|s| - 1] as int;
      Utf8Len(s[..|s| - 1]) + (if c < 0x80 then 1 else if c < 0x800 then 2 else if c < 0x10000 then 3 else 4)
  }

  /** `set_float_option`: the value boxed under its key, and an option of
      size 4 and the Float type pointing at the box. */
  function SetFloatOption(st: OptionsState, urid: UridOf, uri: string, value: real): (r: Run<OptionsState>)
    ensures r.Done? <==> CStrOf(uri).Done?
    ensures r.Done? ==> var key := urid(CStrOf(uri).value);
      r.value == st.(floatValues := st.floatValues[key := Box(st.nextAddr, value)], nextAddr := st.nextAddr + 1,
                     data := PushOption(st.data, OptionRecord(0, 0, key, 4, st.atomFloatUrid, Ptr(st.nextAddr))))
  {
    var uriStr := CStrOf(uri);
    if uriStr.Panic? then Panic(uriStr.reason)
    else
      var key := urid(uriStr.value);
      var box := Box(st.nextAddr, value);
      Done(st.(floatValues := st.floatValues[key := box], nextAddr := st.nextAddr + 1,
               data := PushOption(st.data, OptionRecord(0, 0, key, 4, st.atomFloatUrid, Ptr(box.addr)))))
  }

  /** `set_int_option`: the same with an `i32` and the Int type. */
  function SetIntOption(st: OptionsState, urid: UridOf, uri: string, value: int): (r: Run<OptionsState>)
    requires I32_MIN <= value <= I32_MAX
    ensures r.Done? <==> CStrOf(uri).Done?
    ensures r.Done? ==> var key := urid(CStrOf(uri).value);
      r.value == st.(intValues := st.intValues[key := Box(st.nextAddr, value)], nextAddr := st.nextAddr + 1,
                     data := PushOption(st.data, OptionRecord(0, 0, key, 4, st.atomIntUrid, Ptr(st.nextAddr))))
  {
    var uriStr := CStrOf(uri);
    if uriStr.Panic? then Panic(uriStr.reason)
    else
      var key := urid(uriStr.value);
      var box := Box(st.nextAddr, value);
      Done(st.(intValues := st.intValues[key := box], nextAddr := st.nextAddr + 1,
               data := PushOption(st.data, OptionRecord(0, 0, key, 4, st.atomIntUrid, Ptr(box.addr)))))
  }

  /** `set_string_option`: a text with a NUL panics at `CString::new`; the
      size is the UTF-8 length `as u32` plus one for the NUL, and that
      addition overflows for the largest length. */
  function SetStringOption(st: OptionsState, urid: UridOf, uri: string, value: string): (r: Run<OptionsState>)
    ensures r.Done? <==> '\0' !in value && CStrOf(uri).Done? && Utf8Len(value) % U32_LIMIT + 1 < U32_LIMIT
    ensures r.Done? ==> var key := urid(CStrOf(uri).value);
      r.value == st.(stringValues := st.stringValues[key := Box(st.nextAddr, value)], nextAddr := st.nextAddr + 1,
                     data := PushOption(st.data, OptionRecord(0, 0, key, Utf8Len(value) % U32_LIMIT + 1, st.atomStringUrid, Ptr(st.nextAddr))))
  {
    if '\0' in value then Panic("called `Result::unwrap()` on an `Err` value")
    else
      var uriStr := CStrOf(uri);
      if uriStr.Panic? then Panic(uriStr.reason)
      else
        var key := urid(uriStr.value);
        var len := Utf8Len(value) % U32_LIMIT;
        if len + 1 >= U32_LIMIT then Panic("attempt to add with overflow")
        else
          var box := Box(st.nextAddr, value);
          Done(st.(stringValues := st.stringValues[key := box], nextAddr := st.nextAddr + 1,
                   data := PushOption(st.data, OptionRecord(0, 0, key, len + 1, st.atomStringUrid, Ptr(box.addr)))))
  }

  /** Every setter keeps the array terminated and adds exactly one option,
      after the ones before it. */
  lemma {:induction false} SettersPushOne(st: OptionsState, urid: UridOf, uri: string, f: real, i: int, s: string)
    requires Terminated(st.data) && I32_MIN <= i <= I32_MAX
    ensures forall r :: r in {SetFloatOption(st, urid, uri, f), SetIntOption(st, urid, uri, i), SetStringOption(st, urid, uri, s)} && r.Done? ==>
      Terminated(r.value.data) && |r.value.data| == |st.data| + 1 && r.value.data[..|st.data| - 1] == st.data[..|st.data| - 1]
  {
  }

  // Which boxes the options point at.

  /** A box at `addr` is held by one of the three maps. */
  predicate Live(st: OptionsState, addr: nat) {
    (exists k :: k in st.floatValues && st.floatValues[k].addr == addr)
    || (exists k :: k in st.intValues && st.intValues[k].addr == addr)
    || (exists k :: k in st.stringValues && st.stringValues[k].addr == addr)
  }

  /** Every box was allocated before `nextAddr`. */
  predicate Allocated(st: OptionsState) {
    (forall k :: k in st.floatValues ==> st.floatValues[k].addr < st.nextAddr)
    && (forall k :: k in st.intValues ==> st.intValues[k].addr < st.nextAddr)
    && (forall k :: k in st.stringValues ==> st.stringValues[k].addr < st.nextAddr)
  }

  /** No option of the array points at a freed box. */
  predicate AllLive(st: OptionsState) {
    forall j :: 0 <= j < |st.data| && st.data[j].value.Ptr? ==> Live(st, st.data[j].value.addr)
  }

  /** The new option of `set_int_option` points at a box holding the value. */
  lemma {:induction false} SetIntOptionPointsAtValue(st: OptionsState, urid: UridOf, uri: string, value: int)
    requires Terminated(st.data) && I32_MIN <= value <= I32_MAX && SetIntOption(st, urid, uri, value).Done?
    ensures var st' := SetIntOption(st, urid, uri, value).value;
      var opt := st'.data[|st'.data| - 2];
      opt.key in st'.intValues && opt.value == Ptr(st'.intValues[opt.key].addr)
      && st'.intValues[opt.key].value == value && opt.type_ == st.atomIntUrid && opt.size == 4
  {
  }

  /** Setting the same integer option twice, as written, frees the box the
      first option points at: the second value replaces the first in the
      map, and the first option is left pointing at freed memory. */
  lemma {:induction false} SetIntOptionTwiceFreesFirstBox(urid: UridOf)
    ensures var st0 := NewOptions(urid);
      var st1 := SetIntOption(st0, urid, "x\0", 1);
      st1.Done? && AllLive(st1.value)
      && var st2 := SetIntOption(st1.value, urid, "x\0", 2);
      st2.Done? && st2.value.data[0].value == Ptr(0) && !Live(st2.value, 0) && !AllLive(st2.value)
  {
    var st0 := NewOptions(urid);
    assert CStrOf("x\0") == Done("x") by {
      assert "x\0"[..1] == "x";
    }
    var key := urid("x");
    var st1 := SetIntOption(st0, urid, "x\0", 1).value;
    assert st1.data[0].value == Ptr(0) && st1.intValues[key].addr == 0;
    assert st1.data == [st1.data[0], EMPTY_OPTION];
    var st2 := SetIntOption(st1, urid, "x\0", 2).value;
    assert st2.data[0] == st1.data[0];
    assert st2.intValues == map[key := Box(1, 2)];
  }

  /** The evident intent: a value set again under a key it already has is
      written into the box the earlier option points at, so no box an
      option points at is ever freed. */
  function CorrectedSetIntOption(st: OptionsState, urid: UridOf, uri: string, value: int): (r: Run<OptionsState>)
    requires I32_MIN <= value <= I32_MAX
    ensures r.Done? <==> CStrOf(uri).Done?
    ensures r.Done? ==> var key := urid(CStrOf(uri).value);
      key in r.value.intValues && r.value.intValues[key].value == value
      && r.value.data == PushOption(st.data, OptionRecord(0, 0, key, 4, st.atomIntUrid, Ptr(r.value.intValues[key].addr)))
  {
    var uriStr := CStrOf(uri);
    if uriStr.Panic? then Panic(uriStr.reason)
    else
      var key := urid(uriStr.value);
      var box := if key in st.intValues then Box(st.intValues[key].addr, value) else Box(st.nextAddr, value);
      Done(st.(intValues := st.intValues[key := box], nextAddr := st.nextAddr + 1,
               data := PushOption(st.data, OptionRecord(0, 0, key, 4, st.atomIntUrid, Ptr(box.addr)))))
  }

  /** With the correction, the options keep pointing at live boxes. */
  lemma {:induction false} CorrectedSetIntOptionKeepsLive(st: OptionsState, urid: UridOf, uri: string, value: int)
    requires Terminated(st.data) && AllLive(st) && Allocated(st) && I32_MIN <= value <= I32_MAX
    requires CorrectedSetIntOption(st, urid, uri, value).Done?
    ensures AllLive(CorrectedSetIntOption(st, urid, uri, value).value)
    ensures Allocated(CorrectedSetIntOption(st, urid, uri, value).value)
  {
    var st' := CorrectedSetIntOption(st, urid, uri, value).value;
    var key := urid(CStrOf(uri).value);
    forall j | 0 <= j < |st'.data| && st'.data[j].value.Ptr?
      ensures Live(st', st'.data[j].value.addr)
    {
      var a := st'.data[j].value.addr;
      if j == |st.data| - 1 {
        assert st'.intValues[key].addr == a;
      } else {
        assert j < |st.data| - 1 && st'.data[j] == st.data[j];
        KeptLive(st, st', key, a);
      }
    }
  }

  /** A box live before a corrected integer set is live after it. */
  lemma {:induction false} KeptLive(st: OptionsState, st': OptionsState, key: nat, a: nat)
    requires Live(st, a)
    requires st'.floatValues == st.floatValues && st'.stringValues == st.stringValues
    requires key in st'.intValues && (key in st.intValues ==> st'.intValues[key].addr == st.intValues[key].addr)
    requires forall k :: k in st.intValues && k != key ==> k in st'.intValues && st'.intValues[k] == st.intValues[k]
    ensures Live(st', a)
  {
    if exists k :: k in st.intValues && st.intValues[k].addr == a {
      var k :| k in st.intValues && st.intValues[k].addr == a;
      assert st'.intValues[k].addr == a;
    }
  }
  class Options {
    var data: seq<OptionRecord>
    var atomFloatUrid: nat
    var floatValues: map<nat, Box<real>>
    var atomIntUrid: nat
    var intValues: map<nat, Box<int>>
    var atomStringUrid: nat
    var stringValues: map<nat, Box<string>>
    var nextAddr: nat  // models the heap allocator: the address the next Box gets

    ghost function State(): OptionsState
      reads this
    {
      OptionsState(data, atomFloatUrid, floatValues, atomIntUrid, intValues, atomStringUrid, stringValues, nextAddr)
    }

    constructor (urid: UridOf)
      ensures State() == NewOptions(urid)
    {
      data := [EMPTY_OPTION];
      atomFloatUrid := urid(ATOM_FLOAT_URI);
      floatValues := map[];
      atomIntUrid := urid(ATOM_INT_URI);
      intValues := map[];
      atomStringUrid := urid(ATOM_STRING_URI);
      stringValues := map[];
      nextAddr := 0;
    }

    /** `push_option`. */
    method PushOptionRecord(option: OptionRecord)
      modifies this
      ensures data == PushOption(old(data), option)
      ensures State() == old(State()).(data := data)
    {
      if |data| > 0 {
        data := data[..|data| - 1];
      }
      data := data + [option];
      data := data + [EMPTY_OPTION];
    }

    /** `set_float_option`. */
    method SetFloat(urid: UridOf, uri: string, value: real) returns (r: Run<()>)
      modifies this
      ensures r.Done? <==> SetFloatOption(old(State()), urid, uri, value).Done?
      ensures r.Done? ==> State() == SetFloatOption(old(State()), urid, uri, value).value
    {
      var uriStr := CStrOf(uri);
      if uriStr.Panic? {
        return Panic(uriStr.reason);
      }
      var key := urid(uriStr.value);
      var box := Box(nextAddr, value);
      nextAddr := nextAddr + 1;
      floatValues := floatValues[key := box];
      PushOptionRecord(OptionRecord(0, 0, key, 4, atomFloatUrid, Ptr(box.addr)));
      r := Done(());
    }

    /** `set_int_option`. */
    method SetInt(urid: UridOf, uri: string, value: int) returns (r: Run<()>)
      requires I32_MIN <= value <= I32_MAX
      modifies this
      ensures r.Done? <==> SetIntOption(old(State()), urid, uri, value).Done?
      ensures r.Done? ==> State() == SetIntOption(old(State()), urid, uri, value).value
    {
      var uriStr := CStrOf(uri);
      if uriStr.Panic? {
        return Panic(uriStr.reason);
      }
      var key := urid(uriStr.value);
      var box := Box(nextAddr, value);
      nextAddr := nextAddr + 1;
      intValues := intValues[key := box];
      PushOptionRecord(OptionRecord(0, 0, key, 4, atomIntUrid, Ptr(box.addr)));
      r := Done(());
    }

    /** `set_int_option` as intended: a key set again keeps its box, which
        now holds the new value. */
    method SetIntCorrected(urid: UridOf, uri: string, value: int) returns (r: Run<()>)
      requires I32_MIN <= value <= I32_MAX
      modifies this
      ensures r.Done? <==> CorrectedSetIntOption(old(State()), urid, uri, value).Done?
      ensures r.Done? ==> State() == CorrectedSetIntOption(old(State()), urid, uri, value).value
    {
      var uriStr := CStrOf(uri);
      if uriStr.Panic? {
        return Panic(uriStr.reason);
      }
      var key := urid(uriStr.value);
      var box := if key in intValues then Box(intValues[key].addr, value) else Box(nextAddr, value);
      nextAddr := nextAddr + 1;
      intValues := intValues[key := box];
      PushOptionRecord(OptionRecord(0, 0, key, 4, atomIntUrid, Ptr(box.addr)));
      r := Done(());
    }

    /** `set_string_option`. */
    method SetString(urid: UridOf, uri: string, value: string) returns (r: Run<()>)
      modifies this
      ensures r.Done? <==> SetStringOption(old(State()), urid, uri, value).Done?
      ensures r.Done? ==> State() == SetStringOption(old(State()), urid, uri, value).value
    {
      if '\0' in value {
        return Panic("called `Result::unwrap()` on an `Err` value");
      }
      var uriStr := CStrOf(uri);
      if uriStr.Panic? {
        return Panic(uriStr.reason);
      }
      var key := urid(uriStr.value);
      var len := Utf8Len(value) % U32_LIMIT;
      if len + 1 >= U32_LIMIT {
        return Panic("attempt to add with overflow");
      }
      var box := Box(nextAddr, value);
      nextAddr := nextAddr + 1;
      stringValues := stringValues[key := box];
      PushOptionRecord(OptionRecord(0, 0, key, len + 1, atomStringUrid, Ptr(box.addr)));
      r := Done(());
    }
  }
}
