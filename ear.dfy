/** The inputs of a talker (talker/src/ear.rs). An ear holds sets, a set
    holds hums, and a hum holds the talks it mixes. A talk is a talker's
    voice (a talker and a port) or a default constant talker. Every edit
    builds new vectors and then installs them. The source installs them
    through a `Cell` behind a shared reference; the model returns the new
    `Ear` value. Each vector-building loop is a method proved equal to the
    function that specifies it. Talkers are abstract: a band talker is an
    id plus an instance number, because a replaced talker may keep its id. */
module TalkerEar {
  import opened Wrappers
  import opened Numeric
  import opened Voices

  const DEF_EAR_TAG: string := "In"
  const DEF_HUM_TAG: string := ""

  /** The talker a talk listens to: a band talker, or a constant talker
      made by `def_talker`. The source gives a default talker a fresh id
      that no band talker has; the model gives it no band id at all. */
  datatype TalkerRef = Cab(id: nat, instance: nat) | Default(portType: PortType, value: real)

  predicate IsOf(r: TalkerRef, id: nat) { r.Cab? && r.id == id }

  datatype Talk = Talk(talker: TalkerRef, port: nat)

  /** `def_talk`: port 0 of a new constant talker. */
  function DefTalk(portType: PortType, value: real): (r: Talk)
    ensures r.port == 0 && r.talker.Default? && r.talker.portType == portType
    ensures forall id :: !IsOf(r.talker, id)
  {
    Talk(Default(portType, value), 0)
  }

  datatype Hum = Hum(tag: string, portType: PortType, minValue: real, maxValue: real,
                     defValue: real, talks: seq<Talk>, horn: bool)

  /** A hum owns a mixing horn exactly when it mixes more than one talk. */
  predicate HornValid(h: Hum) { h.horn <==> |h.talks| > 1 }

  /** `Hum::new`. */
  function NewHum(tag: Option<string>, portType: PortType, minValue: real, maxValue: real,
                  defValue: real, talks: seq<Talk>): (r: Hum)
    ensures HornValid(r) && r.talks == talks && r.portType == portType
    ensures r.tag == (if tag.Some? then tag.value else DEF_HUM_TAG)
  {
    Hum(if tag.Some? then tag.value else DEF_HUM_TAG, portType, minValue, maxValue, defValue,
        talks, |talks| > 1)
  }

  /** `Hum::with_talks`: the same hum with other talks. */
  function WithTalks(h: Hum, talks: seq<Talk>): (r: Hum)
    ensures HornValid(r) && r.talks == talks
    ensures r.tag == h.tag && r.portType == h.portType
    ensures r.minValue == h.minValue && r.maxValue == h.maxValue && r.defValue == h.defValue
  {
    NewHum(Some(h.tag), h.portType, h.minValue, h.maxValue, h.defValue, talks)
  }

  function OptTalk(o: Option<Talk>): seq<Talk> { if o.Some? then [o.value] else [] }

  /** `talks_with`: the talks before `i`, then the given talk if any, then
      the talks after `i`. */
  function TalksWith(talks: seq<Talk>, i: nat, o: Option<Talk>): (r: seq<Talk>)
    ensures i < |talks| && o.None? ==> |r| == |talks| - 1 && r == talks[..i] + talks[i + 1..]
    ensures i < |talks| && o.Some? ==>
      |r| == |talks| && r[i] == o.value && forall k :: 0 <= k < |talks| && k != i ==> r[k] == talks[k]
    ensures i >= |talks| ==> r == talks + OptTalk(o)
  {
    var m := Min(|talks|, i);
    var rest := if i + 1 <= |talks| then talks[i + 1..] else [];
    var r := talks[..m] + OptTalk(o) + rest;
    assert i >= |talks| ==> talks[..m] == talks;
    r
  }

  /** The two copying loops of `talks_with`. */
  method BuildTalksWith(talks: seq<Talk>, i: nat, o: Option<Talk>) returns (r: seq<Talk>)
    ensures r == TalksWith(talks, i, o)
  {
    r := [];
    var m := Min(|talks|, i);
    for k := 0 to m
      invariant r == talks[..k]
    {
      r := r + [talks[k]];
    }
    if o.Some? {
      r := r + [o.value];
    }
    if i + 1 < |talks| {
      ghost var front := r;
      for k := i + 1 to |talks|
        invariant r == front + talks[i + 1..k]
      {
        r := r + [talks[k]];
      }
      assert talks[i + 1..|talks|] == talks[i + 1..];
    } else if i + 1 == |talks| {
      assert talks[i + 1..] == [];
    }
  }

  /** `add_talk`: the talk is appended. The source wraps the result in an
      `Ok` that is never an error. */
  function AddTalk(h: Hum, t: Talk): (r: Hum)
    ensures r.talks == h.talks + [t] && HornValid(r) && r.tag == h.tag && r.portType == h.portType
  {
    WithTalks(h, TalksWith(h.talks, |h.talks|, Some(t)))
  }

  /** `sup_talk`: the talk at `i` is removed; an index past the end changes nothing. */
  function SupTalk(h: Hum, i: nat): (r: Hum)
    ensures i < |h.talks| ==> r.talks == h.talks[..i] + h.talks[i + 1..]
    ensures i >= |h.talks| ==> r.talks == h.talks
    ensures HornValid(r) && r.tag == h.tag && r.portType == h.portType
  {
    WithTalks(h, TalksWith(h.talks, i, None))
  }

  /** `set_talk_value`: the talk at `i` becomes a constant talk, or one is
      appended when `i` is past the end. */
  function SetTalkValue(h: Hum, i: nat, value: real): (r: Hum)
    ensures i < |h.talks| ==> (|r.talks| == |h.talks| && r.talks[i] == DefTalk(h.portType, value)
      && forall k :: 0 <= k < |h.talks| && k != i ==> r.talks[k] == h.talks[k])
    ensures i >= |h.talks| ==> r.talks == h.talks + [DefTalk(h.portType, value)]
    ensures HornValid(r) && r.tag == h.tag
  {
    WithTalks(h, TalksWith(h.talks, i, Some(DefTalk(h.portType, value))))
  }

  /** What the ear needs of port types: `PortType::can_hear` and
      `PortType::to_string`, which are not part of this model. */
  datatype PortTypes = PortTypes(canHear: (PortType, PortType) -> bool, name: PortType -> string)

  /** `check_voice`: a voice may be heard only when the hum's port type can
      hear the voice's port type; otherwise the error names the talker, the
      voice and its type, and the hum and its type. */
  function CheckVoice(h: Hum, talkerName: string, port: nat, voiceType: PortType, types: PortTypes): (r: Result<()>)
    ensures r.Ok? <==> types.canHear(h.portType, voiceType)
    ensures r.Err? ==> r.msg == "Talker " + talkerName + " voice " + FormatNat(port) + " type " + types.name(voiceType)
                                + " is not compatible with " + h.tag + " type " + types.name(h.portType) + "!"
  {
    if types.canHear(h.portType, voiceType) then Ok(())
    else Err("Talker " + talkerName + " voice " + FormatNat(port) + " type " + types.name(voiceType)
             + " is not compatible with " + h.tag + " type " + types.name(h.portType) + "!")
  }

  /** The edits `Ear::set_hum` is used with (the closures of
      `set_hum_value`, `set_hum_voice`, `set_talk_value`, `set_talk_voice`,
      `add_value_to_hum`, `add_voice_to_hum` and `sup_talk`). A voice edit
      carries the talker's name and the port type of its voice. */
  datatype HumEdit =
    | SetValue(value: real)
    | SetVoice(talker: TalkerRef, name: string, port: nat, voiceType: PortType)
    | SetTalkValueAt(talkIdx: nat, value: real)
    | SetTalkVoiceAt(talkIdx: nat, talker: TalkerRef, name: string, port: nat, voiceType: PortType)
    | AddValue(value: real)
    | AddVoice(talker: TalkerRef, name: string, port: nat, voiceType: PortType)
    | SupTalkAt(talkIdx: nat)

  function ApplyEdit(h: Hum, e: HumEdit, types: PortTypes): (r: Result<Hum>)
    ensures r.Ok? ==> HornValid(r.value) && r.value.tag == h.tag && r.value.portType == h.portType
    ensures r.Err? <==> (e.SetVoice? || e.SetTalkVoiceAt? || e.AddVoice?) && !types.canHear(h.portType, e.voiceType)
  {
    match e
    case SetValue(v) => Ok(WithTalks(h, [DefTalk(h.portType, v)]))
    case SetVoice(t, name, port, vt) =>
      var c := CheckVoice(h, name, port, vt, types);
      if c.Err? then Err(c.msg) else Ok(WithTalks(h, [Talk(t, port)]))
    case SetTalkValueAt(i, v) => Ok(SetTalkValue(h, i, v))
    case SetTalkVoiceAt(i, t, name, port, vt) =>
      var c := CheckVoice(h, name, port, vt, types);
      if c.Err? then Err(c.msg) else Ok(WithTalks(h, TalksWith(h.talks, i, Some(Talk(t, port)))))
    case AddValue(v) => Ok(AddTalk(h, DefTalk(h.portType, v)))
    case AddVoice(t, name, port, vt) =>
      var c := CheckVoice(h, name, port, vt, types);
      if c.Err? then Err(c.msg) else Ok(AddTalk(h, Talk(t, port)))
    case SupTalkAt(i) => Ok(SupTalk(h, i))
  }

  /** The first value among the talks, in order. */
  function FirstValue(talks: seq<Talk>, valueOf: Talk -> Option<real>): (r: Option<real>)
    ensures r.Some? ==> exists k :: (0 <= k < |talks| && valueOf(talks[k]) == r
      && forall j :: 0 <= j < k ==> valueOf(talks[j]).None?)
    ensures r.None? <==> forall k :: 0 <= k < |talks| ==> valueOf(talks[k]).None?
  {
    if |talks| == 0 then None
    else if valueOf(talks[0]).Some? then
      valueOf(talks[0])
    else
      var r := FirstValue(talks[1..], valueOf);
      assert forall k :: 1 <= k < |talks| ==> talks[k] == talks[1..][k - 1];
      if r.Some? then
        var k :| 0 <= k < |talks[1..]| && valueOf(talks[1..][k]) == r
          && forall j :: 0 <= j < k ==> valueOf(talks[1..][j]).None?;
        assert valueOf(talks[k + 1]) == r;
        assert forall j :: 0 <= j < k + 1 ==> valueOf(talks[j]).None? by {
          forall j | 0 <= j < k + 1 ensures valueOf(talks[j]).None? {
            if j > 0 { assert talks[j] == talks[1..][j - 1]; }
          }
        }
        r
      else r
  }

  /** `Hum::value`: an Atom hum has no value; any other hum has the first
      value among its talks. A talk's value (`voice_value` of its talker)
      is a parameter. */
  function HumValue(h: Hum, valueOf: Talk -> Option<real>): (r: Option<real>)
    ensures h.portType == Atom ==> r.None?
    ensures h.portType != Atom ==> r == FirstValue(h.talks, valueOf)
  {
    if h.portType != Atom then FirstValue(h.talks, valueOf) else None
  }

  datatype Set = Set(hums: seq<Hum>)

  /** The first index of a hum with the tag. */
  function FirstTag(hums: seq<Hum>, tag: string): (r: Option<nat>)
    ensures r.Some? ==> (r.value < |hums| && hums[r.value].tag == tag
      && forall j :: 0 <= j < r.value ==> hums[j].tag != tag)
    ensures r.None? <==> forall j :: 0 <= j < |hums| ==> hums[j].tag != tag
  {
    if |hums| == 0 then None
    else if hums[0].tag == tag then Some(0)
    else
      var r := FirstTag(hums[1..], tag);
      assert forall j :: 1 <= j < |hums| ==> hums[j] == hums[1..][j - 1];
      if r.Some? then Some(r.value + 1) else None
  }

  function HumNotFound(tag: string): string { "hum " + tag + " not found!" }

  /** `Set::find_hum_index`: the first hum with the tag, or an error. */
  function FindHumIndex(s: Set, tag: string): (r: Result<nat>)
    ensures r.Ok? ==> (r.value < |s.hums| && s.hums[r.value].tag == tag
      && forall j :: 0 <= j < r.value ==> s.hums[j].tag != tag)
    ensures r.Err? <==> forall j :: 0 <= j < |s.hums| ==> s.hums[j].tag != tag
    ensures r.Err? ==> r.msg == HumNotFound(tag)
  {
    var o := FirstTag(s.hums, tag);
    if o.Some? then Ok(o.value) else Err(HumNotFound(tag))
  }

  /** `Set::with_hum`: the hum at `i` edited, the others kept. Indexing
      past the hums panics; an error of the edit is passed on. */
  function WithHum(s: Set, i: nat, e: HumEdit, types: PortTypes): (r: Run<Result<Set>>)
    ensures r.Panic? <==> i >= |s.hums|
    ensures r.Done? && r.value.Err? <==> i < |s.hums| && ApplyEdit(s.hums[i], e, types).Err?
    ensures r.Done? && r.value.Ok? ==> (|r.value.value.hums| == |s.hums|
      && r.value.value.hums[i] == ApplyEdit(s.hums[i], e, types).value
      && forall k :: 0 <= k < |s.hums| && k != i ==> r.value.value.hums[k] == s.hums[k])
  {
    if i >= |s.hums| then Panic("index out of bounds")
    else
      var h := ApplyEdit(s.hums[i], e, types);
      if h.Err? then Done(Err(h.msg))
      else Done(Ok(Set(s.hums[..i] + [h.value] + s.hums[i + 1..])))
  }

  /** The loops of `with_hum`. */
  method BuildWithHum(s: Set, i: nat, e: HumEdit, types: PortTypes)
    returns (r: Run<Result<Set>>)
    ensures r == WithHum(s, i, e, types)
  {
    var hums: seq<Hum> := [];
    var m := Min(i, |s.hums|);
    for k := 0 to m
      invariant hums == s.hums[..k]
    {
      hums := hums + [s.hums[k]];
    }
    if i >= |s.hums| {
      return Panic("index out of bounds");
    }
    var h := ApplyEdit(s.hums[i], e, types);
    if h.Err? {
      return Done(Err(h.msg));
    }
    hums := hums + [h.value];
    for k := i + 1 to |s.hums|
      invariant hums == s.hums[..i] + [h.value] + s.hums[i + 1..k]
    {
      hums := hums + [s.hums[k]];
    }
    assert s.hums[i + 1..|s.hums|] == s.hums[i + 1..];
    r := Done(Ok(Set(hums)));
  }

  datatype Ear = Ear(tag: string, multiHum: bool, stemSet: Option<Set>, sets: seq<Set>)

  /** `Ear::new`: the tag defaults to "In" and the sets to none. */
  function NewEar(tag: Option<string>, multiHum: bool, stemSet: Option<Set>,
                  sets: Option<seq<Set>>): (r: Ear)
    ensures r.tag == (if tag.Some? then tag.value else DEF_EAR_TAG)
    ensures r.sets == (if sets.Some? then sets.value else [])
    ensures r.multiHum == multiHum && r.stemSet == stemSet
  {
    Ear(if tag.Some? then tag.value else DEF_EAR_TAG, multiHum, stemSet,
        if sets.Some? then sets.value else [])
  }

  function StemNotFound(ear: Ear): string { "Ear " + ear.tag + " stem set not found!" }

  /** `add_set`: a copy of the stem set is appended and its index returned;
      an ear without a stem set is an error. */
  function AddSet(ear: Ear): (r: Result<(Ear, nat)>)
    ensures r.Err? <==> ear.stemSet.None?
    ensures r.Err? ==> r.msg == StemNotFound(ear)
    ensures r.Ok? ==> var (e, i) := r.value;
      i == |ear.sets| && e.sets == ear.sets + [ear.stemSet.value]
      && e.tag == ear.tag && e.stemSet == ear.stemSet && e.multiHum == ear.multiHum
      && e.sets[i] == ear.stemSet.value
  {
    if ear.stemSet.Some? then Ok((ear.(sets := ear.sets + [ear.stemSet.value]), |ear.sets|))
    else Err(StemNotFound(ear))
  }

  /** `sup_set`: removes exactly the set at `i`. With no set at all the
      capacity `len - 1` underflows and the source panics. */
  function SupSet(ear: Ear, i: nat): (r: Run<Ear>)
    ensures r.Panic? <==> |ear.sets| == 0
    ensures r.Done? && i < |ear.sets| ==> r.value.sets == ear.sets[..i] + ear.sets[i + 1..]
    ensures r.Done? && i >= |ear.sets| ==> r.value.sets == ear.sets
    ensures r.Done? ==> r.value.tag == ear.tag && r.value.stemSet == ear.stemSet
  {
    if |ear.sets| == 0 then Panic("attempt to subtract with overflow")
    else if i < |ear.sets| then Done(ear.(sets := ear.sets[..i] + ear.sets[i + 1..]))
    else Done(ear)
  }

  /** The copying loop of `sup_set`. */
  method BuildSupSet(ear: Ear, i: nat) returns (r: Run<Ear>)
    ensures r == SupSet(ear, i)
  {
    if |ear.sets| == 0 {
      return Panic("attempt to subtract with overflow");
    }
    var sets: seq<Set> := [];
    for k := 0 to |ear.sets|
      invariant k <= i ==> sets == ear.sets[..k]
      invariant k > i ==> sets == ear.sets[..i] + ear.sets[i + 1..k]
    {
      if k != i {
        sets := sets + [ear.sets[k]];
      }
    }
    if i >= |ear.sets| {
      assert ear.sets[..|ear.sets|] == ear.sets;
    } else {
      assert ear.sets[i + 1..|ear.sets|] == ear.sets[i + 1..];
    }
    r := Done(ear.(sets := sets));
  }

  /** `Ear::set_hum`: edits hum `humIdx` of set `setIdx`. A set past the
      end is first created, padding with copies of the stem set; without a
      stem set that is an error. On any error the ear is unchanged. */
  function SetHum(ear: Ear, setIdx: nat, humIdx: nat, e: HumEdit,
                  types: PortTypes): (r: Run<Result<Ear>>)
    ensures setIdx >= |ear.sets| && ear.stemSet.None? ==> r == Done(Err(StemNotFound(ear)))
    ensures r.Done? && r.value.Ok? ==> var e2 := r.value.value;
      e2.tag == ear.tag && e2.stemSet == ear.stemSet && e2.multiHum == ear.multiHum
  {
    if setIdx < |ear.sets| then EditSet(ear, setIdx, humIdx, e, types)
    else if ear.stemSet.Some? then PadSets(ear, setIdx, humIdx, e, types)
    else Done(Err(StemNotFound(ear)))
  }

  /** `set_hum` on an existing set: only that set changes. */
  function EditSet(ear: Ear, setIdx: nat, humIdx: nat, e: HumEdit,
                   types: PortTypes): (r: Run<Result<Ear>>)
    requires setIdx < |ear.sets|
    ensures r.Done? && r.value.Ok? ==> var e2 := r.value.value;
      e2.tag == ear.tag && e2.stemSet == ear.stemSet && e2.multiHum == ear.multiHum
      && |e2.sets| == |ear.sets|
      && (forall k :: 0 <= k < |ear.sets| && k != setIdx ==> e2.sets[k] == ear.sets[k])
      && Done(Ok(e2.sets[setIdx])) == WithHum(ear.sets[setIdx], humIdx, e, types)
    ensures r.Panic? <==> humIdx >= |ear.sets[setIdx].hums|
  {
    var w := WithHum(ear.sets[setIdx], humIdx, e, types);
    if w.Panic? then Panic(w.reason)
    else if w.value.Err? then Done(Err(w.value.msg))
    else Done(Ok(ear.(sets := ear.sets[..setIdx] + [w.value.value] + ear.sets[setIdx + 1..])))
  }

  /** `set_hum` past the last set: copies of the stem set up to `setIdx`,
      then the edited stem set. */
  function PadSets(ear: Ear, setIdx: nat, humIdx: nat, e: HumEdit,
                   types: PortTypes): (r: Run<Result<Ear>>)
    requires setIdx >= |ear.sets| && ear.stemSet.Some?
    ensures r.Done? && r.value.Ok? ==> var e2 := r.value.value;
      e2.tag == ear.tag && e2.stemSet == ear.stemSet && e2.multiHum == ear.multiHum
      && |e2.sets| == setIdx + 1 && e2.sets[..|ear.sets|] == ear.sets
      && (forall k :: |ear.sets| <= k < setIdx ==> e2.sets[k] == ear.stemSet.value)
      && Done(Ok(e2.sets[setIdx])) == WithHum(ear.stemSet.value, humIdx, e, types)
    ensures r.Panic? <==> humIdx >= |ear.stemSet.value.hums|
  {
    var stem := ear.stemSet.value;
    var w := WithHum(stem, humIdx, e, types);
    if w.Panic? then Panic(w.reason)
    else if w.value.Err? then Done(Err(w.value.msg))
    else
      var sets := ear.sets + seq(setIdx - |ear.sets|, _ => stem) + [w.value.value];
      assert sets[..|ear.sets|] == ear.sets;
      Done(Ok(ear.(sets := sets)))
  }

  /** The loops of `Ear::set_hum`. */
  method BuildSetHum(ear: Ear, setIdx: nat, humIdx: nat, e: HumEdit,
                     types: PortTypes) returns (r: Run<Result<Ear>>)
    ensures r == SetHum(ear, setIdx, humIdx, e, types)
  {
    if setIdx < |ear.sets| {
      r := BuildEditSet(ear, setIdx, humIdx, e, types);
    } else if ear.stemSet.Some? {
      r := BuildPadSets(ear, setIdx, humIdx, e, types);
    } else {
      r := Done(Err(StemNotFound(ear)));
    }
  }

  method BuildEditSet(ear: Ear, setIdx: nat, humIdx: nat, e: HumEdit,
                      types: PortTypes) returns (r: Run<Result<Ear>>)
    requires setIdx < |ear.sets|
    ensures r == EditSet(ear, setIdx, humIdx, e, types)
  {
    var n := |ear.sets|;
    var sets: seq<Set> := [];
    for k := 0 to setIdx
      invariant sets == ear.sets[..k]
    {
      sets := sets + [ear.sets[k]];
    }
    var w := BuildWithHum(ear.sets[setIdx], humIdx, e, types);
    if w.Panic? {
      return Panic(w.reason);
    }
    if w.value.Err? {
      return Done(Err(w.value.msg));
    }
    sets := sets + [w.value.value];
    for k := setIdx + 1 to n
      invariant sets == ear.sets[..setIdx] + [w.value.value] + ear.sets[setIdx + 1..k]
    {
      sets := sets + [ear.sets[k]];
    }
    assert ear.sets[setIdx + 1..n] == ear.sets[setIdx + 1..];
    r := Done(Ok(ear.(sets := sets)));
  }

  method BuildPadSets(ear: Ear, setIdx: nat, humIdx: nat, e: HumEdit,
                      types: PortTypes) returns (r: Run<Result<Ear>>)
    requires setIdx >= |ear.sets| && ear.stemSet.Some?
    ensures r == PadSets(ear, setIdx, humIdx, e, types)
  {
    var n := |ear.sets|;
    var sets: seq<Set> := [];
    for k := 0 to n
      invariant sets == ear.sets[..k]
    {
      sets := sets + [ear.sets[k]];
    }
    var stem := ear.stemSet.value;
    assert sets == ear.sets;
    for k := n to setIdx
      invariant sets == ear.sets + seq(k - n, _ => stem)
    {
      sets := sets + [stem];
    }
    var w := BuildWithHum(stem, humIdx, e, types);
    if w.Panic? {
      return Panic(w.reason);
    }
    if w.value.Err? {
      return Done(Err(w.value.msg));
    }
    sets := sets + [w.value.value];
    r := Done(Ok(ear.(sets := sets)));
  }

  /** `Ear::find_hum_index`: looks in the stem set, else in the first set. */
  function EarFindHumIndex(ear: Ear, tag: string): (r: Result<nat>)
    ensures ear.stemSet.Some? ==> r == FindHumIndex(ear.stemSet.value, tag)
    ensures ear.stemSet.None? && |ear.sets| > 0 ==> r == FindHumIndex(ear.sets[0], tag)
    ensures ear.stemSet.None? && |ear.sets| == 0 ==> r == Err(HumNotFound(tag))
  {
    if ear.stemSet.Some? then FindHumIndex(ear.stemSet.value, tag)
    else if |ear.sets| > 0 then FindHumIndex(ear.sets[0], tag)
    else Err(HumNotFound(tag))
  }

  /** `is_listening_talker`: some talk of some hum of some set is of the talker. */
  predicate IsListeningTalker(ear: Ear, id: nat) {
    exists i, j, k :: 0 <= i < |ear.sets| && 0 <= j < |ear.sets[i].hums| &&
      0 <= k < |ear.sets[i].hums[j].talks| && IsOf(ear.sets[i].hums[j].talks[k].talker, id)
  }

  predicate ListensIn(talks: seq<Talk>, id: nat, n: nat) {
    exists k :: 0 <= k < n && k < |talks| && IsOf(talks[k].talker, id)
  }

  predicate ListensInHums(hums: seq<Hum>, id: nat, n: nat) {
    exists j :: 0 <= j < n && j < |hums| && ListensIn(hums[j].talks, id, |hums[j].talks|)
  }

  /** Some talk of the talker in the sets before `n`. */
  predicate ListensBefore(ear: Ear, id: nat, n: nat) {
    exists i :: 0 <= i < n && i < |ear.sets| && ListensInHums(ear.sets[i].hums, id, |ear.sets[i].hums|)
  }

  /** The loops of `is_listening_talker`, which return on the first talk of
      the talker. */
  method SearchListeningTalker(ear: Ear, id: nat) returns (b: bool)
    ensures b <==> IsListeningTalker(ear, id)
  {
    for i := 0 to |ear.sets|
      invariant !ListensBefore(ear, id, i)
    {
      var hums := ear.sets[i].hums;
      for j := 0 to |hums|
        invariant !ListensInHums(hums, id, j)
      {
        var talks := hums[j].talks;
        for k := 0 to |talks|
          invariant !ListensIn(talks, id, k)
        {
          if IsOf(talks[k].talker, id) {
            return true;
          }
        }
      }
    }
    return false;
  }

  /** The three whole-ear rewrites of the talks: redirect the talks of a
      talker to another (`replace_talker`), drop them (`sup_talker`), or
      drop those on some ports (`sup_talker_ports`). */
  datatype Rewrite =
    | Redirect(id: nat, to: TalkerRef)
    | Drop(id: nat)
    | DropPorts(id: nat, ports: set<nat>)

  predicate Keeps(rw: Rewrite, t: Talk) {
    match rw
    case Redirect(_, _) => true
    case Drop(id) => !IsOf(t.talker, id)
    case DropPorts(id, ports) => !IsOf(t.talker, id) || t.port !in ports
  }

  function Renamed(rw: Rewrite, t: Talk): Talk {
    if rw.Redirect? && IsOf(t.talker, rw.id) then Talk(rw.to, t.port) else t
  }

  /** The talks a rewrite leaves, in their order. */
  function Rewritten(talks: seq<Talk>, rw: Rewrite): (r: seq<Talk>)
    ensures |r| <= |talks|
    ensures rw.Redirect? ==> |r| == |talks|
  {
    if |talks| == 0 then []
    else
      var front := Rewritten(talks[..|talks| - 1], rw);
      var t := talks[|talks| - 1];
      if Keeps(rw, t) then front + [Renamed(rw, t)] else front
  }

  /** The talks of a hum after the rewrite; a hum left without any talk
      gets one constant talk of value 0. */
  function RewrittenHum(h: Hum, rw: Rewrite): (r: Hum)
    ensures HornValid(r) && r.tag == h.tag && r.portType == h.portType
    ensures rw.Redirect? ==> |r.talks| == |h.talks|
    ensures !rw.Redirect? ==> |r.talks| >= 1
  {
    var talks := Rewritten(h.talks, rw);
    WithTalks(h, if |talks| == 0 && !rw.Redirect? then [DefTalk(h.portType, 0.0)] else talks)
  }

  /** The first `n` hums of a set, each rewritten. */
  function RewrittenHums(hums: seq<Hum>, rw: Rewrite, n: nat): (r: seq<Hum>)
    requires n <= |hums|
    ensures |r| == n
    ensures forall k :: 0 <= k < n ==> r[k] == RewrittenHum(hums[k], rw)
  {
    if n == 0 then [] else RewrittenHums(hums, rw, n - 1) + [RewrittenHum(hums[n - 1], rw)]
  }

  function RewrittenSet(s: Set, rw: Rewrite): (r: Set)
    ensures |r.hums| == |s.hums|
  {
    Set(RewrittenHums(s.hums, rw, |s.hums|))
  }

  function RewrittenEar(ear: Ear, rw: Rewrite): (r: Ear)
    ensures |r.sets| == |ear.sets| && r.tag == ear.tag && r.stemSet == ear.stemSet
    ensures forall i :: 0 <= i < |ear.sets| ==> r.sets[i] == RewrittenSet(ear.sets[i], rw)
  {
    ear.(sets := seq(|ear.sets|, i requires 0 <= i < |ear.sets| => RewrittenSet(ear.sets[i], rw)))
  }

  /** The ear keeps its tag, kind, stem set, sets and hums (with their tags
      and port types); only the talks of the hums may differ. */
  predicate SameShape(ear: Ear, r: Ear) {
    r.tag == ear.tag && r.multiHum == ear.multiHum && r.stemSet == ear.stemSet
    && |r.sets| == |ear.sets|
    && forall i :: 0 <= i < |ear.sets| ==>
      |r.sets[i].hums| == |ear.sets[i].hums|
      && forall j :: 0 <= j < |ear.sets[i].hums| ==>
        r.sets[i].hums[j].tag == ear.sets[i].hums[j].tag
        && r.sets[i].hums[j].portType == ear.sets[i].hums[j].portType
  }

  /** Every hum of the ear has at least one talk. */
  predicate NoSilentHum(ear: Ear) {
    forall i, j :: 0 <= i < |ear.sets| && 0 <= j < |ear.sets[i].hums| ==> |ear.sets[i].hums[j].talks| >= 1
  }

  /** `Ear::replace_talker`: the shape and the number of talks of every hum
      are kept, and the ear no longer listens to the replaced talker unless
      it is its own replacement. */
  function ReplaceTalker(ear: Ear, id: nat, to: TalkerRef): (r: Ear)
    ensures SameShape(ear, r)
    ensures forall i, j :: 0 <= i < |ear.sets| && 0 <= j < |ear.sets[i].hums| ==>
      |r.sets[i].hums[j].talks| == |ear.sets[i].hums[j].talks|
    ensures !IsOf(to, id) ==> !IsListeningTalker(r, id)
  {
    RewrittenEarShape(ear, Redirect(id, to));
    if IsOf(to, id) then RewrittenEar(ear, Redirect(id, to))
    else
      RedirectStopsListening(ear, id, to);
      RewrittenEar(ear, Redirect(id, to))
  }

  /** `Ear::sup_talker`: the shape is kept, no hum is left without a talk,
      and the ear no longer listens to the talker. */
  function SupTalker(ear: Ear, id: nat): (r: Ear)
    ensures SameShape(ear, r) && NoSilentHum(r)
    ensures !IsListeningTalker(r, id)
  {
    RewrittenEarShape(ear, Drop(id));
    DropStopsListening(ear, id);
    RewrittenEar(ear, Drop(id))
  }

  /** Whether some talk of the talker is on one of the ports (the source
      collects those ports first, and rebuilds the ear only when there is
      one). Filtering on that collection or on `ports` itself keeps the same
      talks, since only talks of the talker are tested. */
  predicate ListensOnPorts(ear: Ear, id: nat, ports: set<nat>) {
    FoundBefore(ear, id, ports, |ear.sets|)
  }

  /** `Ear::sup_talker_ports`: an ear without a talk of the talker on one of
      the ports is left as it is; otherwise the shape is kept, no hum is left
      without a talk, and no talk of the talker on one of the ports remains. */
  function SupTalkerPorts(ear: Ear, id: nat, ports: set<nat>): (r: Ear)
    ensures !ListensOnPorts(ear, id, ports) ==> r == ear
    ensures ListensOnPorts(ear, id, ports) ==> SameShape(ear, r) && NoSilentHum(r)
    ensures !ListensOnPorts(r, id, ports)
  {
    if ListensOnPorts(ear, id, ports) then
      RewrittenEarShape(ear, DropPorts(id, ports));
      DropPortsStops(ear, id, ports);
      RewrittenEar(ear, DropPorts(id, ports))
    else ear
  }

  /** The innermost loop of the three rewrites. */
  method BuildRewrittenTalks(talks: seq<Talk>, rw: Rewrite) returns (r: seq<Talk>)
    ensures r == Rewritten(talks, rw)
  {
    r := [];
    for k := 0 to |talks|
      invariant r == Rewritten(talks[..k], rw)
    {
      assert talks[..k + 1][..k] == talks[..k];
      if Keeps(rw, talks[k]) {
        r := r + [Renamed(rw, talks[k])];
      }
    }
    assert talks[..|talks|] == talks;
  }

  /** The loop over the hums of a set, for the three rewrites. */
  method BuildRewrittenSet(s: Set, rw: Rewrite) returns (r: Set)
    ensures r == RewrittenSet(s, rw)
  {
    var hums: seq<Hum> := [];
    for j := 0 to |s.hums|
      invariant hums == RewrittenHums(s.hums, rw, j)
    {
      var h := BuildRewrittenHum(s.hums[j], rw);
      RewrittenHumsStep(s, rw, j, hums, h);
      hums := hums + [h];
    }
    r := Set(hums);
  }

  lemma {:induction false} RewrittenHumsStep(s: Set, rw: Rewrite, j: nat, hums: seq<Hum>, h: Hum)
    requires j < |s.hums| && hums == RewrittenHums(s.hums, rw, j) && h == RewrittenHum(s.hums[j], rw)
    ensures hums + [h] == RewrittenHums(s.hums, rw, j + 1)
  {
  }

  method BuildRewrittenHum(h: Hum, rw: Rewrite) returns (r: Hum)
    ensures r == RewrittenHum(h, rw)
  {
    var talks := BuildRewrittenTalks(h.talks, rw);
    if |talks| == 0 && !rw.Redirect? {
      talks := [DefTalk(h.portType, 0.0)];
    }
    r := WithTalks(h, talks);
  }

  /** The loop over the sets of an ear, for the three rewrites. */
  method BuildRewrittenEar(ear: Ear, rw: Rewrite) returns (r: Ear)
    ensures r == RewrittenEar(ear, rw)
  {
    var sets: seq<Set> := [];
    for i := 0 to |ear.sets|
      invariant |sets| == i
      invariant forall i' :: 0 <= i' < i ==> sets[i'] == RewrittenSet(ear.sets[i'], rw)
    {
      var s := BuildRewrittenSet(ear.sets[i], rw);
      sets := sets + [s];
    }
    r := ear.(sets := sets);
    EarOfRewrittenSets(ear, rw, r);
  }

  lemma {:induction false} EarOfRewrittenSets(ear: Ear, rw: Rewrite, r: Ear)
    requires r.tag == ear.tag && r.multiHum == ear.multiHum && r.stemSet == ear.stemSet
    requires |r.sets| == |ear.sets|
    requires forall i :: 0 <= i < |ear.sets| ==> r.sets[i] == RewrittenSet(ear.sets[i], rw)
    ensures r == RewrittenEar(ear, rw)
  {
    assert r.sets == RewrittenEar(ear, rw).sets;
  }

  predicate FoundInTalks(talks: seq<Talk>, id: nat, ports: set<nat>, n: nat) {
    exists k :: 0 <= k < n && k < |talks| && IsOf(talks[k].talker, id) && talks[k].port in ports
  }

  predicate FoundInHums(hums: seq<Hum>, id: nat, ports: set<nat>, n: nat) {
    exists j :: 0 <= j < n && j < |hums| && FoundInTalks(hums[j].talks, id, ports, |hums[j].talks|)
  }

  /** Some talk of the talker on one of the ports in the sets before `n`. */
  predicate FoundBefore(ear: Ear, id: nat, ports: set<nat>, n: nat) {
    exists i :: 0 <= i < n && i < |ear.sets| && FoundInHums(ear.sets[i].hums, id, ports, |ear.sets[i].hums|)
  }

  /** `sup_talker_ports`, with its first loop looking for a talk to drop. */
  method BuildSupTalkerPorts(ear: Ear, id: nat, ports: set<nat>) returns (r: Ear)
    ensures r == SupTalkerPorts(ear, id, ports)
  {
    var found := false;
    for i := 0 to |ear.sets|
      invariant found <==> FoundBefore(ear, id, ports, i)
    {
      var hums := ear.sets[i].hums;
      for j := 0 to |hums|
        invariant found <==> FoundBefore(ear, id, ports, i) || FoundInHums(hums, id, ports, j)
      {
        var talks := hums[j].talks;
        for k := 0 to |talks|
          invariant found <==>
            (FoundBefore(ear, id, ports, i) || FoundInHums(hums, id, ports, j) || FoundInTalks(talks, id, ports, k))
        {
          if IsOf(talks[k].talker, id) && talks[k].port in ports {
            found := true;
          }
        }
      }
    }
    if found {
      r := BuildRewrittenEar(ear, DropPorts(id, ports));
    } else {
      r := ear;
    }
  }

  /** A rewrite keeps, renamed, exactly the talks it keeps, and nothing else. */
  lemma {:induction false} RewrittenMembers(talks: seq<Talk>, rw: Rewrite)
    ensures forall t :: t in Rewritten(talks, rw) <==>
      exists k :: 0 <= k < |talks| && Keeps(rw, talks[k]) && t == Renamed(rw, talks[k])
  {
    if |talks| > 0 {
      var front := talks[..|talks| - 1];
      RewrittenMembers(front, rw);
      assert forall k :: 0 <= k < |front| ==> front[k] == talks[k];
    }
  }

  /** A redirection keeps every talk, at its place. */
  lemma {:induction false} RedirectedAt(talks: seq<Talk>, id: nat, to: TalkerRef)
    ensures var r := Rewritten(talks, Redirect(id, to));
      |r| == |talks| && forall k :: 0 <= k < |talks| ==> r[k] == Renamed(Redirect(id, to), talks[k])
  {
    if |talks| > 0 {
      var front := talks[..|talks| - 1];
      RedirectedAt(front, id, to);
      assert forall k :: 0 <= k < |front| ==> front[k] == talks[k];
    }
  }

  /** The talks of a rewritten hum: the kept ones, or one constant talk. */
  lemma {:induction false} RewrittenHumTalks(h: Hum, rw: Rewrite)
    ensures forall t :: t in RewrittenHum(h, rw).talks ==>
      (exists k :: 0 <= k < |h.talks| && Keeps(rw, h.talks[k]) && t == Renamed(rw, h.talks[k]))
      || t == DefTalk(h.portType, 0.0)
    ensures forall k :: 0 <= k < |h.talks| && Keeps(rw, h.talks[k]) ==>
      Renamed(rw, h.talks[k]) in RewrittenHum(h, rw).talks
  {
    RewrittenMembers(h.talks, rw);
  }

  /** A rewrite keeps the shape of the ear; a redirection keeps the number
      of talks of every hum, and a removal leaves none of them silent. */
  lemma {:induction false} RewrittenEarShape(ear: Ear, rw: Rewrite)
    ensures SameShape(ear, RewrittenEar(ear, rw))
    ensures rw.Redirect? ==> forall i, j :: 0 <= i < |ear.sets| && 0 <= j < |ear.sets[i].hums| ==>
      |RewrittenEar(ear, rw).sets[i].hums[j].talks| == |ear.sets[i].hums[j].talks|
    ensures !rw.Redirect? ==> NoSilentHum(RewrittenEar(ear, rw))
  {
    var r := RewrittenEar(ear, rw);
    forall i, j | 0 <= i < |ear.sets| && 0 <= j < |ear.sets[i].hums|
      ensures r.sets[i].hums[j] == RewrittenHum(ear.sets[i].hums[j], rw)
    {
      assert r.sets[i] == RewrittenSet(ear.sets[i], rw);
    }
  }

  /** A redirection to another talker leaves no talk of the replaced one. */
  lemma {:induction false} RedirectStopsListening(ear: Ear, id: nat, to: TalkerRef)
    requires !IsOf(to, id)
    ensures !IsListeningTalker(RewrittenEar(ear, Redirect(id, to)), id)
  {
    var r := RewrittenEar(ear, Redirect(id, to));
    forall i, j, k | 0 <= i < |r.sets| && 0 <= j < |r.sets[i].hums| && 0 <= k < |r.sets[i].hums[j].talks|
      ensures !IsOf(r.sets[i].hums[j].talks[k].talker, id)
    {
      var h := ear.sets[i].hums[j];
      assert r.sets[i].hums[j] == RewrittenHum(h, Redirect(id, to));
      RedirectedAt(h.talks, id, to);
    }
  }

  /** After `sup_talker`'s rewrite, no talk of the ear is of that talker. */
  lemma {:induction false} DropStopsListening(ear: Ear, id: nat)
    ensures !IsListeningTalker(RewrittenEar(ear, Drop(id)), id)
  {
    var r := RewrittenEar(ear, Drop(id));
    forall i, j, k | 0 <= i < |r.sets| && 0 <= j < |r.sets[i].hums| && 0 <= k < |r.sets[i].hums[j].talks|
      ensures !IsOf(r.sets[i].hums[j].talks[k].talker, id)
    {
      var h := ear.sets[i].hums[j];
      assert r.sets[i].hums[j] == RewrittenHum(h, Drop(id));
      RewrittenHumTalks(h, Drop(id));
      assert r.sets[i].hums[j].talks[k] in RewrittenHum(h, Drop(id)).talks;
    }
  }

  /** `sup_talker` keeps every talk of another talker, in its hum. */
  lemma {:induction false} SupTalkerKeepsOthers(ear: Ear, id: nat, i: nat, j: nat, k: nat)
    requires i < |ear.sets| && j < |ear.sets[i].hums| && k < |ear.sets[i].hums[j].talks|
    requires !IsOf(ear.sets[i].hums[j].talks[k].talker, id)
    ensures ear.sets[i].hums[j].talks[k] in SupTalker(ear, id).sets[i].hums[j].talks
  {
    RewrittenHumTalks(ear.sets[i].hums[j], Drop(id));
  }

  lemma {:induction false} HumDropsPorts(h: Hum, id: nat, ports: set<nat>)
    ensures var r := RewrittenHum(h, DropPorts(id, ports)).talks; !FoundInTalks(r, id, ports, |r|)
  {
    var r := RewrittenHum(h, DropPorts(id, ports)).talks;
    RewrittenHumTalks(h, DropPorts(id, ports));
    forall k | 0 <= k < |r| ensures !(IsOf(r[k].talker, id) && r[k].port in ports) {
      assert r[k] in r;
    }
  }

  /** After `sup_talker_ports`' rewrite, no talk of the talker is on one of the ports. */
  lemma {:induction false} DropPortsStops(ear: Ear, id: nat, ports: set<nat>)
    ensures !ListensOnPorts(RewrittenEar(ear, DropPorts(id, ports)), id, ports)
  {
    var r := RewrittenEar(ear, DropPorts(id, ports));
    forall i, j | 0 <= i < |r.sets| && 0 <= j < |r.sets[i].hums|
      ensures !FoundInTalks(r.sets[i].hums[j].talks, id, ports, |r.sets[i].hums[j].talks|)
    {
      assert r.sets[i].hums[j] == RewrittenHum(ear.sets[i].hums[j], DropPorts(id, ports));
      HumDropsPorts(ear.sets[i].hums[j], id, ports);
    }
  }

  /** `sup_talker_ports` keeps every talk of another talker or on another port. */
  lemma {:induction false} SupTalkerPortsKeepsOthers(ear: Ear, id: nat, ports: set<nat>, i: nat, j: nat, k: nat)
    requires i < |ear.sets| && j < |ear.sets[i].hums| && k < |ear.sets[i].hums[j].talks|
    requires !IsOf(ear.sets[i].hums[j].talks[k].talker, id) || ear.sets[i].hums[j].talks[k].port !in ports
    ensures ear.sets[i].hums[j].talks[k] in SupTalkerPorts(ear, id, ports).sets[i].hums[j].talks
  {
    RewrittenHumTalks(ear.sets[i].hums[j], DropPorts(id, ports));
  }

  /** `replace_talker` keeps the shape of the ear and redirects, port for
      port, exactly the talks of the replaced talker. */
  lemma {:induction false} ReplaceTalkerRedirects(ear: Ear, id: nat, to: TalkerRef, i: nat, j: nat)
    requires i < |ear.sets| && j < |ear.sets[i].hums|
    ensures var r := ReplaceTalker(ear, id, to);
      var old_talks := ear.sets[i].hums[j].talks;
      |r.sets| == |ear.sets| && |r.sets[i].hums| == |ear.sets[i].hums|
      && |r.sets[i].hums[j].talks| == |old_talks|
      && forall k :: 0 <= k < |old_talks| ==> (r.sets[i].hums[j].talks[k] ==
        if IsOf(old_talks[k].talker, id) then Talk(to, old_talks[k].port) else old_talks[k])
  {
    RedirectedAt(ear.sets[i].hums[j].talks, id, to);
  }
}
