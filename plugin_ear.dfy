/** The inputs of a plugin talker (plugin/src/ear.rs). An ear is one talk
    or a list of talks of one port type; a talk listens to a voice, that is a
    talker and a port. Talks and lists of talks sit in `RefCell`s that the
    edits change in place, so they are classes here. Talkers are abstract:
    what the model needs of them (the type of a voice, the tick and length
    of the chunk it last computed, the length `talk` returns) comes in as
    values. */
module PluginEars {
  import opened Wrappers
  import opened Numeric

  datatype PortType = Audio | Control | Cv

  const DEF_INPUT_TAG: string := "I"

  /** The talker a talk listens to: a talker of the graph, or the constant
      talker `def_audio_talker`, `def_control_talker` or `def_cv_talker`
      makes for the talk. */
  datatype TalkerRef = GraphTalker(id: nat) | DefaultTalker(portType: PortType, value: real)

  /** The last chunk a voice computed: its tick and its length. */
  datatype VoiceCache = VoiceCache(tick: int, len: nat)

  /** A voice: a talker and one of its ports. */
  type VoiceKey = (TalkerRef, nat)

  /** The voices of the talkers with the last chunk of each; a talker
      without a voice at a port has no entry. */
  type Voices = map<VoiceKey, VoiceCache>

  /** The length `talk(port, tick, len)` returns. A talker that talks
      leaves that voice at `tick` with that length, as the constant talkers
      do. */
  type TalkFn = (TalkerRef, nat, int, nat) -> nat

  /** What listening leaves: the length heard, the voices after it, and
      the voices whose talker was asked to talk, in order. */
  datatype Heard = Heard(len: nat, voices: Voices, talked: seq<VoiceKey>)

  class Talk {
    var portType: PortType
    var tag: string
    var tkr: TalkerRef
    var port: nat

    constructor (portType: PortType, tag: string, tkr: TalkerRef, port: nat)
      ensures this.portType == portType && this.tag == tag && this.tkr == tkr && this.port == port
    {
      this.portType := portType;
      this.tag := tag;
      this.tkr := tkr;
      this.port := port;
    }
  }

  /** `new_talk_value`: a talk of the given type on port 0 of a new
      constant talker. */
  method NewTalkValue(portType: PortType, value: real) returns (t: Talk)
    ensures fresh(t)
    ensures t.portType == portType && t.tag == DEF_INPUT_TAG
    ensures t.tkr == DefaultTalker(portType, value) && t.port == 0
  {
    t := new Talk(portType, DEF_INPUT_TAG, DefaultTalker(portType, value), 0);
  }

  /** `new_talk_voice`: a talk on the voice `port` of `talker`, of that
      voice's type. */
  method NewTalkVoice(talker: TalkerRef, port: nat, voiceType: PortType) returns (t: Talk)
    ensures fresh(t)
    ensures t.portType == voiceType && t.tag == DEF_INPUT_TAG && t.tkr == talker && t.port == port
  {
    t := new Talk(voiceType, DEF_INPUT_TAG, talker, port);
  }

  class Talks {
    var portType: PortType
    var tag: string
    var talks: seq<Talk>

    /** `def_talks`: no talk yet, the tag defaulting to `I`. */
    constructor (tag: Option<string>, portType: PortType)
      ensures this.portType == portType && this.tag == tag.GetOr(DEF_INPUT_TAG) && talks == []
    {
      this.portType := portType;
      this.tag := tag.GetOr(DEF_INPUT_TAG);
      talks := [];
    }

    /** `add_talk_value`: appends a constant talk of the list's type. */
    method AddTalkValue(value: real) returns (r: Result<()>)
      modifies this
      ensures r.Ok?
      ensures |talks| == |old(talks)| + 1 && talks[..|old(talks)|] == old(talks)
      ensures fresh(talks[|talks| - 1])
      ensures talks[|talks| - 1].portType == portType && talks[|talks| - 1].tkr == DefaultTalker(portType, value)
      ensures talks[|talks| - 1].port == 0 && talks[|talks| - 1].tag == DEF_INPUT_TAG
      ensures portType == old(portType) && tag == old(tag)
    {
      var t := NewTalkValue(portType, value);
      talks := talks + [t];
      r := Ok(());
    }

    /** `add_talk_voice`: appends a talk on the voice `port` of `talker`
        when that voice is of the list's type (`voiceType` is its type,
        `None` when the talker has no such voice); otherwise the list is
        unchanged and the error names the talker, the port and the list. */
    method AddTalkVoice(talker: TalkerRef, port: nat, voiceType: Option<PortType>, talkerName: string)
      returns (r: Result<()>)
      modifies this
      ensures r.Ok? <==> voiceType == Some(portType)
      ensures r.Ok? ==> |talks| == |old(talks)| + 1 && talks[..|old(talks)|] == old(talks)
      ensures r.Ok? ==> fresh(talks[|talks| - 1]) && talks[|talks| - 1].portType == portType
      ensures r.Ok? ==> talks[|talks| - 1].tkr == talker && talks[|talks| - 1].port == port
      ensures r.Err? ==> talks == old(talks)
      ensures r.Err? ==>
        r.msg == "Talker " + talkerName + " voice " + FormatNat(port) + " type is not compatible with talks " + tag + "!"
      ensures portType == old(portType) && tag == old(tag)
    {
      if voiceType == Some(portType) {
        var t := NewTalkVoice(talker, port, voiceType.value);
        talks := talks + [t];
        r := Ok(());
      } else {
        r := Err("Talker " + talkerName + " voice " + FormatNat(port) + " type is not compatible with talks " + tag + "!");
      }
    }
  }

  datatype Ear = TalkEar(talk: Talk) | TalksEar(talks: Talks)

  /** `set_talk_value`: the talk now listens to port 0 of a new constant
      talker of its own type. */
  method SetTalkValue(talk: Talk, value: real) returns (r: Result<()>)
    modifies talk
    ensures r.Ok?
    ensures talk.tkr == DefaultTalker(talk.portType, value) && talk.port == 0
    ensures talk.portType == old(talk.portType) && talk.tag == old(talk.tag)
  {
    r := Ok(());
    match talk.portType
    case Audio =>
      talk.tkr := DefaultTalker(Audio, value);
      talk.port := 0;
    case Control =>
      talk.tkr := DefaultTalker(Control, value);
      talk.port := 0;
    case Cv =>
      talk.tkr := DefaultTalker(Cv, value);
      talk.port := 0;
  }

  /** `set_talk_voice`: the talk now listens to the voice `port` of
      `talker` when that voice is of the talk's type; otherwise the talk is
      unchanged and the error names both talkers, the port and the talk. */
  method SetTalkVoice(talk: Talk, talker: TalkerRef, port: nat, voiceType: Option<PortType>,
                      talkerName: string, currentTalkerName: string) returns (r: Result<()>)
    modifies talk
    ensures r.Ok? <==> voiceType == Some(talk.portType)
    ensures r.Ok? ==> talk.tkr == talker && talk.port == port
    ensures r.Err? ==> talk.tkr == old(talk.tkr) && talk.port == old(talk.port)
    ensures r.Err? ==>
      r.msg == "Talker " + talkerName + " voice " + FormatNat(port) + " type is not compatible with talker "
               + currentTalkerName + " talk " + talk.tag + "!"
    ensures talk.portType == old(talk.portType) && talk.tag == old(talk.tag)
  {
    if voiceType == Some(talk.portType) {
      talk.tkr := talker;
      talk.port := port;
      r := Ok(());
    } else {
      r := Err("Talker " + talkerName + " voice " + FormatNat(port) + " type is not compatible with talker "
               + currentTalkerName + " talk " + talk.tag + "!");
    }
  }

  function KeyOf(talk: Talk): VoiceKey reads talk {
    (talk.tkr, talk.port)
  }

  /** `listen_talk`: a voice whose last chunk is at `tick` answers with
      that chunk's length, and no talker is asked; otherwise its talker
      talks, once, and the voice is left at `tick` with the length it
      returned. A talker without the voice makes the `unwrap` panic. */
  function ListenTalk(talk: Talk, tick: int, len: nat, voices: Voices, talkOf: TalkFn): (r: Run<Heard>)
    reads talk
    ensures r.Panic? <==> KeyOf(talk) !in voices
    ensures r.Done? && voices[KeyOf(talk)].tick == tick ==>
      r.value == Heard(voices[KeyOf(talk)].len, voices, [])
    ensures r.Done? && voices[KeyOf(talk)].tick != tick ==>
      r.value.len == talkOf(talk.tkr, talk.port, tick, len) && r.value.talked == [KeyOf(talk)]
    ensures r.Done? ==> r.value.voices == voices[KeyOf(talk) := VoiceCache(tick, r.value.len)]
  {
    var key := (talk.tkr, talk.port);
    if key !in voices then Panic("called `Option::unwrap()` on a `None` value")
    else if tick == voices[key].tick then Done(Heard(voices[key].len, voices, []))
    else
      var ln := talkOf(talk.tkr, talk.port, tick, len);
      Done(Heard(ln, voices[key := VoiceCache(tick, ln)], [key]))
  }

  /** `r` with `talked` before the voices it asked to talk. */
  function After(talked: seq<VoiceKey>, r: Run<Heard>): Run<Heard> {
    match r
    case Panic(reason) => Panic(reason)
    case Done(h) => Done(h.(talked := talked + h.talked))
  }

  lemma AfterNothing(r: Run<Heard>)
    ensures After([], r) == r
  {
    if r.Done? {
      assert [] + r.value.talked == r.value.talked;
    }
  }

  lemma AfterAfter(a: seq<VoiceKey>, b: seq<VoiceKey>, r: Run<Heard>)
    ensures After(a, After(b, r)) == After(a + b, r)
  {
    if r.Done? {
      assert a + (b + r.value.talked) == (a + b) + r.value.talked;
    }
  }

  /** The talks of a list listened to in order, each asked for the length
      the previous one gave and hearing the voices the previous ones left. */
  function ListenAll(talks: seq<Talk>, tick: int, len: nat, voices: Voices, talkOf: TalkFn): Run<Heard>
    reads set i | 0 <= i < |talks| :: talks[i]
  {
    if |talks| == 0 then Done(Heard(len, voices, []))
    else
      match ListenTalk(talks[0], tick, len, voices, talkOf)
      case Panic(reason) => Panic(reason)
      case Done(h) => After(h.talked, ListenAll(talks[1..], tick, h.len, h.voices, talkOf))
  }

  /** When every voice of the list has its last chunk at `tick`, no talker
      talks, the voices are left as they are, and the list answers with the
      last voice's length (`len` for an empty list). */
  lemma {:induction false} ListenAllCached(talks: seq<Talk>, tick: int, len: nat, voices: Voices, talkOf: TalkFn)
    requires forall i :: 0 <= i < |talks| ==> KeyOf(talks[i]) in voices && voices[KeyOf(talks[i])].tick == tick
    ensures |talks| == 0 ==> ListenAll(talks, tick, len, voices, talkOf) == Done(Heard(len, voices, []))
    ensures |talks| > 0 ==>
      ListenAll(talks, tick, len, voices, talkOf) == Done(Heard(voices[KeyOf(talks[|talks| - 1])].len, voices, []))
  {
    if |talks| > 0 {
      var ln := voices[KeyOf(talks[0])].len;
      assert ListenTalk(talks[0], tick, len, voices, talkOf) == Done(Heard(ln, voices, []));
      ListenAllCached(talks[1..], tick, ln, voices, talkOf);
      AfterNothing(ListenAll(talks[1..], tick, ln, voices, talkOf));
      if |talks| > 1 {
        assert talks[1..][|talks[1..]| - 1] == talks[|talks| - 1];
      }
    }
  }

  /** A voice missing anywhere in the list makes the listening panic:
      listening never adds or removes a voice. */
  lemma {:induction false} ListenAllMissingVoice(talks: seq<Talk>, tick: int, len: nat, voices: Voices,
                                                 talkOf: TalkFn, k: nat)
    requires k < |talks| && KeyOf(talks[k]) !in voices
    ensures ListenAll(talks, tick, len, voices, talkOf).Panic?
  {
    if k > 0 {
      match ListenTalk(talks[0], tick, len, voices, talkOf)
      case Panic(_) =>
      case Done(h) =>
        assert talks[1..][k - 1] == talks[k];
        assert h.voices.Keys == voices.Keys;
        ListenAllMissingVoice(talks[1..], tick, h.len, h.voices, talkOf, k - 1);
    }
  }

  /** Each voice is computed at most once per tick: the voices whose
      talker talks are distinct, were not at `tick` before, and are at
      `tick` after; the other voices are left as they were, and every voice
      of the list ends at `tick`. */
  lemma {:induction false} ListenAllTalksOnce(talks: seq<Talk>, tick: int, len: nat, voices: Voices, talkOf: TalkFn)
    ensures var r := ListenAll(talks, tick, len, voices, talkOf);
      r.Done? ==>
        r.value.voices.Keys == voices.Keys &&
        (forall i, j :: 0 <= i < j < |r.value.talked| ==> r.value.talked[i] != r.value.talked[j]) &&
        (forall v :: v in r.value.talked ==> v in voices && voices[v].tick != tick && r.value.voices[v].tick == tick) &&
        (forall v :: v in voices && v !in r.value.talked ==> r.value.voices[v] == voices[v]) &&
        (forall i :: 0 <= i < |talks| ==>
          KeyOf(talks[i]) in r.value.voices && r.value.voices[KeyOf(talks[i])].tick == tick)
  {
    if |talks| > 0 {
      match ListenTalk(talks[0], tick, len, voices, talkOf)
      case Panic(_) =>
      case Done(h) =>
        ListenAllTalksOnce(talks[1..], tick, h.len, h.voices, talkOf);
        var rest := ListenAll(talks[1..], tick, h.len, h.voices, talkOf);
        if rest.Done? {
          var t := h.talked + rest.value.talked;
          assert ListenAll(talks, tick, len, voices, talkOf) == Done(rest.value.(talked := t));
          forall i | 0 <= i < |talks|
            ensures KeyOf(talks[i]) in rest.value.voices && rest.value.voices[KeyOf(talks[i])].tick == tick
          {
            if i > 0 {
              assert talks[i] == talks[1..][i - 1];
            }
          }
        }
    }
  }

  /** Listening again at the same tick asks no talker and changes no
      voice. */
  lemma ListenAgain(talks: seq<Talk>, tick: int, len: nat, len2: nat, voices: Voices, talkOf: TalkFn)
    requires ListenAll(talks, tick, len, voices, talkOf).Done?
    ensures var h := ListenAll(talks, tick, len, voices, talkOf).value;
      var again := ListenAll(talks, tick, len2, h.voices, talkOf);
      again.Done? && again.value.voices == h.voices && again.value.talked == []
  {
    ListenAllTalksOnce(talks, tick, len, voices, talkOf);
    var h := ListenAll(talks, tick, len, voices, talkOf).value;
    ListenAllCached(talks, tick, len2, h.voices, talkOf);
  }

  /** `Ear::listen`: a single talk is listened to; a list of talks passes
      the length from each talk to the next. */
  method Listen(ear: Ear, tick: int, len: nat, voices: Voices, talkOf: TalkFn) returns (r: Run<Heard>)
    ensures ear.TalkEar? ==> r == ListenTalk(ear.talk, tick, len, voices, talkOf)
    ensures ear.TalksEar? ==> r == ListenAll(ear.talks.talks, tick, len, voices, talkOf)
  {
    match ear
    case TalkEar(talk) =>
      r := ListenTalk(talk, tick, len, voices, talkOf);
    case TalksEar(talks) =>
      var all := talks.talks;
      var ln := len;
      var vs := voices;
      var talked := [];
      var i := 0;
      AfterNothing(ListenAll(all, tick, len, voices, talkOf));
      while i < |all|
        invariant 0 <= i <= |all|
        invariant ListenAll(all, tick, len, voices, talkOf) == After(talked, ListenAll(all[i..], tick, ln, vs, talkOf))
      {
        assert all[i..][1..] == all[i + 1..];
        var heard := ListenTalk(all[i], tick, ln, vs, talkOf);
        match heard
        case Panic(reason) =>
          return Panic(reason);
        case Done(h) =>
          AfterAfter(talked, h.talked, ListenAll(all[i + 1..], tick, h.len, h.voices, talkOf));
          ln := h.len;
          vs := h.voices;
          talked := talked + h.talked;
        i := i + 1;
      }
      assert all[i..] == [] && talked + [] == talked;
      r := Done(Heard(ln, vs, talked));
  }

  /** The slots a flat index counts: a single talk is one slot, a list of
      talks one slot per talk. */
  function Slots(ear: Ear): seq<Talk>
    reads if ear.TalksEar? then {ear.talks} else {}
  {
    match ear
    case TalkEar(talk) => [talk]
    case TalksEar(talks) => talks.talks
  }

  function TalksOf(ears: seq<Ear>): set<Talks> {
    set i | 0 <= i < |ears| && ears[i].TalksEar? :: ears[i].talks
  }

  /** The slots of each ear, in ear order. */
  function EarSlots(ears: seq<Ear>): (r: seq<seq<Talk>>)
    reads TalksOf(ears)
    ensures |r| == |ears| && forall i :: 0 <= i < |ears| ==> r[i] == Slots(ears[i])
  {
    seq(|ears|, i requires 0 <= i < |ears| reads TalksOf(ears) => Slots(ears[i]))
  }

  /** The slot lists laid end to end. */
  function Flatten<T>(ss: seq<seq<T>>): seq<T> {
    if |ss| == 0 then [] else Flatten(ss[..|ss| - 1]) + ss[|ss| - 1]
  }

  lemma {:induction false} FlattenPrefix<T>(ss: seq<seq<T>>, k: nat)
    requires k <= |ss|
    ensures |Flatten(ss[..k])| <= |Flatten(ss)|
    ensures Flatten(ss)[..|Flatten(ss[..k])|] == Flatten(ss[..k])
    decreases |ss| - k
  {
    if k < |ss| {
      FlattenPrefix(ss, k + 1);
      assert ss[..k + 1][..k] == ss[..k];
    } else {
      assert ss[..k] == ss;
    }
  }

  /** When every ear is a single talk, slot `i` is the talk of ear `i`. */
  lemma {:induction false} FlattenSingleTalks(ears: seq<Ear>)
    requires forall i :: 0 <= i < |ears| ==> ears[i].TalkEar?
    ensures |Flatten(EarSlots(ears))| == |ears|
    ensures forall i :: 0 <= i < |ears| ==> Flatten(EarSlots(ears))[i] == ears[i].talk
  {
    if |ears| > 0 {
      var init := ears[..|ears| - 1];
      FlattenSingleTalks(init);
      assert EarSlots(ears)[..|ears| - 1] == EarSlots(init);
    }
  }

  lemma {:induction false} FlattenStep<T>(ss: seq<seq<T>>, k: nat)
    requires k < |ss|
    ensures Flatten(ss[..k + 1]) == Flatten(ss[..k]) + ss[k]
  {
    assert ss[..k + 1][..k] == ss[..k];
  }

  /** Item `j` of list `k` sits after the items of the lists before it. */
  lemma {:induction false} FlattenAt<T>(ss: seq<seq<T>>, k: nat, j: nat)
    requires k < |ss| && j < |ss[k]|
    ensures |Flatten(ss[..k])| + j < |Flatten(ss)|
    ensures Flatten(ss)[|Flatten(ss[..k])| + j] == ss[k][j]
  {
    FlattenStep(ss, k);
    FlattenPrefix(ss, k + 1);
  }

  /** `visit_ear_flatten_index`: the talk in slot `index` of the flattened
      ears, on which the caller's visitor is run, or the error when there is
      no such slot. The running slot count never passes `index`, so the
      `usize` subtraction `index - i` cannot underflow. */
  method VisitEarFlattenIndex(ears: seq<Ear>, index: nat) returns (r: Result<Talk>)
    ensures index < |Flatten(EarSlots(ears))| ==> r == Ok(Flatten(EarSlots(ears))[index])
    ensures index >= |Flatten(EarSlots(ears))| ==> r == Err("Ear " + FormatNat(index) + " not found!")
  {
    var notFound := Err("Ear " + FormatNat(index) + " not found!");
    r := notFound;
    ghost var slots := EarSlots(ears);
    var i := 0;
    var k := 0;
    while k < |ears|
      invariant 0 <= k <= |ears|
      invariant i == |Flatten(slots[..k])| && i <= index
      invariant r == notFound && slots == EarSlots(ears)
    {
      FlattenStep(slots, k);
      ghost var here := slots[k];
      assert here == Slots(ears[k]);
      if ears[k].TalkEar? {
        if i == index {
          assert here == [ears[k].talk];
          FlattenAt(slots, k, 0);
          r := Ok(ears[k].talk);
          return;
        }
        i := i + 1;
      } else {
        var talks := ears[k].talks.talks;
        var ri := index - i;
        if ri < |talks| {
          assert here == talks;
          FlattenAt(slots, k, ri);
          r := Ok(talks[ri]);
          return;
        }
        i := i + |talks|;
      }
      k := k + 1;
    }
    assert slots[..k] == slots;
    assert |Flatten(EarSlots(ears))| == i;
  }
}
