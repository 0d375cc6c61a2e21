/** The graph presenter of the GUI (src/graph_presenter.rs): the selection
    state behind the graph view. It keeps the selected hum, the hum
    selected for adding a talk, the selected voice, the last talker added,
    and the sets of selected and minimized talkers. Each operation returns
    the notifications the view is to receive. The only other effect is an
    edit handed to the session presenter's `modify_band`. The session
    presenter is reduced here to the record of the edits and notices it
    receives. */
module GraphPresenters {
  import opened Wrappers
  import opened Seqs
  import opened EventBus
  import opened BandOperations
  import opened Identifiers

  /** What the session presenter is handed: the band edits passed to
      `modify_band` and the notifications passed to `notify`, in order
      (src/session_presenter.rs:87-89,113-115,168-171). The session that
      applies an edit is not part of this model, and neither is the `State`
      notification or the error that `modify_band` sends on after it, so
      `notices` leaves those out. */
  class SessionPresenter {
    var operations: seq<Operation>
    var notices: seq<Notification>

    constructor ()
      ensures operations == [] && notices == []
    {
      operations := [];
      notices := [];
    }

    method ModifyBand(op: Operation)
      modifies this
      ensures operations == old(operations) + [op] && notices == old(notices)
    {
      operations := operations + [op];
    }

    method Notify(n: Notification)
      modifies this
      ensures notices == old(notices) + [n] && operations == old(operations)
    {
      notices := notices + [n];
    }

    /** One `notify` call for each of `ns`, in order. */
    method NotifyEach(ns: seq<Notification>)
      modifies this
      ensures notices == old(notices) + ns && operations == old(operations)
    {
      for k := 0 to |ns|
        invariant notices == old(notices) + ns[..k] && operations == old(operations)
      {
        Notify(ns[k]);
        assert ns[..k + 1] == ns[..k] + [ns[k]];
      }
      assert ns[..|ns|] == ns;
    }

    /** `notify_error`: the error's text as an `Error` notification. */
    method NotifyError(message: string)
      modifies this
      ensures notices == old(notices) + [Error(message)] && operations == old(operations)
    {
      notices := notices + [Error(message)];
    }
  }

  /** `x` added to `s` when absent, removed when present. */
  function Toggled(s: set<nat>, x: nat): (r: set<nat>)
    ensures x in r <==> x !in s
    ensures forall y :: y != x ==> (y in r <==> y in s)
    ensures x in s ==> |r| == |s| - 1
    ensures x !in s ==> |r| == |s| + 1
  {
    if x in s then s - {x} else s + {x}
  }

  lemma ToggledTwice(s: set<nat>, x: nat)
    ensures Toggled(Toggled(s, x), x) == s
  {
    assert forall y :: y in Toggled(Toggled(s, x), x) <==> y in s;
  }

  /** Whether a click on a talker toggles it rather than replacing the
      selection: with ctrl held, or with fewer than two talkers selected. */
  predicate Toggles(selected: set<nat>, control: bool) {
    control || |selected| < 2
  }

  /** The talker selection after a click on `id`. */
  function TalkerSelection(selected: set<nat>, control: bool, id: nat): (r: set<nat>)
    ensures Toggles(selected, control) ==> (id in r <==> id !in selected)
    ensures Toggles(selected, control) ==> forall y :: y != id ==> (y in r <==> y in selected)
    ensures !Toggles(selected, control) ==> r == {id}
  {
    if Toggles(selected, control) then Toggled(selected, id) else {id}
  }

  /** With ctrl held, a second click on the same talker gives back the
      selection the first click started from. */
  lemma ControlClickTwice(selected: set<nat>, id: nat)
    ensures TalkerSelection(TalkerSelection(selected, true, id), true, id) == selected
  {
    ToggledTwice(selected, id);
  }

  /** Without ctrl, a click on a talker while several are selected leaves
      it alone selected, and a second click then unselects it. */
  lemma PlainClickTwice(selected: set<nat>, id: nat)
    requires |selected| >= 2
    ensures TalkerSelection(selected, false, id) == {id}
    ensures TalkerSelection(TalkerSelection(selected, false, id), false, id) == {}
  {
    assert |{id}| == 1;
  }

  /** `notes` is one `TalkerUnselected` for each of `ids`, in any order (the
      iteration order of a hash set). */
  ghost predicate UnselectsAll(notes: seq<Notification>, ids: set<nat>) {
    && |notes| == |ids|
    && (forall i :: 0 <= i < |notes| ==> notes[i].TalkerUnselected? && notes[i].id in ids)
    && (forall id :: id in ids ==> TalkerUnselected(id) in notes)
  }

  /** The loop over the selected talkers that unselects each of them. */
  method UnselectAll(ids: set<nat>) returns (notes: seq<Notification>)
    ensures UnselectsAll(notes, ids)
    ensures AllDistinct(notes)
  {
    notes := [];
    var rest := ids;
    while rest != {}
      invariant rest <= ids
      invariant |notes| + |rest| == |ids|
      invariant forall i :: 0 <= i < |notes| ==> notes[i].TalkerUnselected? && notes[i].id in ids - rest
      invariant forall id :: id in ids - rest ==> TalkerUnselected(id) in notes
      invariant AllDistinct(notes)
      decreases |rest|
    {
      var id :| id in rest;
      notes := notes + [TalkerUnselected(id)];
      rest := rest - {id};
    }
  }

  /** The hum, add-in hum and voice selections. */
  datatype Selection = Selection(hum: Option<HumPath>, addIn: Option<HumPath>, voice: Option<VoicePort>)

  /** A hum is never selected both ways at once. */
  predicate SingleHum(s: Selection) {
    !(s.hum.Some? && s.addIn.Some?)
  }

  /** The outcome of a click: the new selection, the notifications for the
      view and the band edits handed to `modify_band`, in order. */
  datatype Click = Click(selection: Selection, notes: seq<Notification>, edits: seq<Operation>)

  /** The selection notifications that tell the view how `s0` became `s1`:
      a selection that changed is announced as unselected when it was
      set, and as selected when it is set now. */
  function Changes(s0: Selection, s1: Selection): set<Notification> {
    HumChanges(s0.hum, s1.hum) + AddInChanges(s0.addIn, s1.addIn) + VoiceChanges(s0.voice, s1.voice)
  }

  function HumChanges(before: Option<HumPath>, after: Option<HumPath>): set<Notification> {
    if before == after then {}
    else (if after.Some? then {EarSelected(after.value)} else {}) + (if before.Some? then {EarUnselected(before.value)} else {})
  }

  function AddInChanges(before: Option<HumPath>, after: Option<HumPath>): set<Notification> {
    if before == after then {}
    else (if after.Some? then {EarAddInSelected(after.value)} else {}) + (if before.Some? then {EarAddInUnselected(before.value)} else {})
  }

  function VoiceChanges(before: Option<VoicePort>, after: Option<VoicePort>): set<Notification> {
    if before == after then {}
    else (if after.Some? then {VoiceSelected(after.value)} else {}) + (if before.Some? then {VoiceUnselected(before.value)} else {})
  }

  function SelectionNotes(notes: seq<Notification>): set<Notification> {
    set n | n in notes && n.IsSelectionNote()
  }

  /** The selection notifications of `notes` are exactly those announcing
      the change from `s0` to `s1`. */
  predicate Announces(s0: Selection, s1: Selection, notes: seq<Notification>) {
    SelectionNotes(notes) == Changes(s0, s1)
  }

  /** `select_ear_hum` on the selection `s`. */
  function HumClick(s: Selection, h: HumPath): (c: Click)
    ensures s.hum == Some(h) ==> c.selection.hum == None
    ensures s.hum.Some? && s.hum != Some(h) ==> c.selection.hum == Some(h)
    ensures s.hum.Some? ==> c.selection.addIn == s.addIn && c.selection.voice == s.voice && c.edits == []
    ensures s.hum.None? ==> c.selection.addIn == None && c.selection.voice == None
    ensures s.hum.None? && s.voice.Some? && s.voice.value.talker != h.talker ==>
      && c.selection.hum == None
      && c.edits == [SetEarHumVoice(h.talker, h.ear, h.setIdx, h.hum, s.voice.value.talker, s.voice.value.port)]
  {
    match s.hum
    case Some(prev) =>
      Click(s.(hum := if h == prev then None else Some(h)),
            (if h == prev then [] else [EarSelected(h)]) + [EarUnselected(prev), SelectionChanged],
            [])
    case None =>
      var connects := s.voice.Some? && s.voice.value.talker != h.talker;
      var voiceNotes :=
        match s.voice
        case None => [EarSelected(h)]
        case Some(v) => (if connects then [TalkerChanged] else [EarSelected(h)]) + [VoiceUnselected(v)];
      var addInNotes := if s.addIn.Some? then [EarAddInUnselected(s.addIn.value)] else [];
      var changed := !connects || s.addIn.Some?;
      Click(Selection(if connects then None else Some(h), None, None),
            voiceNotes + addInNotes + (if changed then [SelectionChanged] else []),
            if connects then [SetEarHumVoice(h.talker, h.ear, h.setIdx, h.hum, s.voice.value.talker, s.voice.value.port)] else [])
  }

  /** `select_ear_hum_add_in` on the selection `s`: the same as a hum click
      with the roles of the two hum selections exchanged, a voice of
      another talker being added to the hum rather than set on it. */
  function HumAddInClick(s: Selection, h: HumPath): (c: Click)
    ensures s.addIn == Some(h) ==> c.selection.addIn == None
    ensures s.addIn.Some? && s.addIn != Some(h) ==> c.selection.addIn == Some(h)
    ensures s.addIn.Some? ==> c.selection.hum == s.hum && c.selection.voice == s.voice && c.edits == []
    ensures s.addIn.None? ==> c.selection.hum == None && c.selection.voice == None
    ensures s.addIn.None? && s.voice.Some? && s.voice.value.talker != h.talker ==>
      && c.selection.addIn == None
      && c.edits == [AddVoiceToEarHum(h.talker, h.ear, h.setIdx, h.hum, s.voice.value.talker, s.voice.value.port)]
  {
    match s.addIn
    case Some(prev) =>
      Click(s.(addIn := if h == prev then None else Some(h)),
            (if h == prev then [] else [EarAddInSelected(h)]) + [EarAddInUnselected(prev), SelectionChanged],
            [])
    case None =>
      var connects := s.voice.Some? && s.voice.value.talker != h.talker;
      var voiceNotes :=
        match s.voice
        case None => [EarAddInSelected(h)]
        case Some(v) => (if connects then [TalkerChanged] else [EarAddInSelected(h)]) + [VoiceUnselected(v)];
      var humNotes := if s.hum.Some? then [EarUnselected(s.hum.value)] else [];
      var changed := !connects || s.hum.Some?;
      Click(Selection(None, if connects then None else Some(h), None),
            voiceNotes + humNotes + (if changed then [SelectionChanged] else []),
            if connects then [AddVoiceToEarHum(h.talker, h.ear, h.setIdx, h.hum, s.voice.value.talker, s.voice.value.port)] else [])
  }

  /** The notifications of one of the two ear blocks of `select_voice`,
      as written: the hum `e` of the voice's talker makes the voice
      selected, another talker's hum gets an edit; an absent hum makes the
      voice selected as well. */
  function VoiceBlockNotes(e: Option<HumPath>, vp: VoicePort): (r: seq<Notification>)
    ensures e.Some? && e.value.talker != vp.talker ==> r == [TalkerChanged, EarUnselected(e.value)]
    ensures e.Some? && e.value.talker == vp.talker ==> r == [VoiceSelected(vp), SelectionChanged, EarUnselected(e.value)]
    ensures e.None? ==> r == [VoiceSelected(vp), SelectionChanged]
  {
    match e
    case None => [VoiceSelected(vp), SelectionChanged]
    case Some(p) => (if p.talker == vp.talker then [VoiceSelected(vp), SelectionChanged] else [TalkerChanged]) + [EarUnselected(p)]
  }

  /** `select_voice` on the selection `s`, as written. Without a voice
      selected, the hum and the add-in hum are handled one after the other
      rather than as alternatives, and the add-in hum is announced as an
      unselected hum. */
  function VoiceClick(s: Selection, vp: VoicePort): (c: Click)
    ensures s.voice == Some(vp) ==> c.selection == s.(voice := None)
    ensures s.voice.Some? && s.voice != Some(vp) ==> c.selection == s.(voice := Some(vp))
    ensures s.voice.Some? ==> c.edits == [] && |c.notes| >= 2 && c.notes[|c.notes| - 1] == SelectionChanged
    ensures s.voice.None? ==> c.selection.hum == None && c.selection.addIn == None
    ensures s.voice.None? && s.hum.Some? && s.hum.value.talker != vp.talker ==>
      c.edits != [] && c.edits[0] == SetEarHumVoice(s.hum.value.talker, s.hum.value.ear, s.hum.value.setIdx, s.hum.value.hum, vp.talker, vp.port)
  {
    match s.voice
    case Some(prev) =>
      Click(s.(voice := if vp == prev then None else Some(vp)),
            (if vp == prev then [] else [VoiceSelected(vp)]) + [VoiceUnselected(prev), SelectionChanged],
            [])
    case None =>
      var humConnects := s.hum.Some? && s.hum.value.talker != vp.talker;
      var addInConnects := s.addIn.Some? && s.addIn.value.talker != vp.talker;
      Click(Selection(None, None, if humConnects && addInConnects then None else Some(vp)),
            VoiceBlockNotes(s.hum, vp) + VoiceBlockNotes(s.addIn, vp),
            (if humConnects then [SetEarHumVoice(s.hum.value.talker, s.hum.value.ear, s.hum.value.setIdx, s.hum.value.hum, vp.talker, vp.port)] else [])
            + (if addInConnects then [AddVoiceToEarHum(s.addIn.value.talker, s.addIn.value.ear, s.addIn.value.setIdx, s.addIn.value.hum, vp.talker, vp.port)] else []))
  }

  /** `select_voice` as evidently intended: the selected hum, else the
      selected add-in hum, else nothing, decides what the click does, and
      the add-in hum is announced as such. */
  function VoiceClickCorrected(s: Selection, vp: VoicePort): (c: Click)
    ensures s.voice == Some(vp) ==> c.selection == s.(voice := None)
    ensures s.voice.Some? && s.voice != Some(vp) ==> c.selection == s.(voice := Some(vp))
    ensures s.voice.Some? ==> c.edits == []
    ensures s.voice.None? ==> c.selection.hum == None
    ensures s.voice.None? && s.hum.None? ==> c.selection.addIn == None
    ensures s.voice.None? && s.hum.Some? && s.hum.value.talker != vp.talker ==>
      && c.selection.voice == None
      && c.edits == [SetEarHumVoice(s.hum.value.talker, s.hum.value.ear, s.hum.value.setIdx, s.hum.value.hum, vp.talker, vp.port)]
    ensures s.voice.None? && s.hum.None? && s.addIn.Some? && s.addIn.value.talker != vp.talker ==>
      && c.selection.voice == None
      && c.edits == [AddVoiceToEarHum(s.addIn.value.talker, s.addIn.value.ear, s.addIn.value.setIdx, s.addIn.value.hum, vp.talker, vp.port)]
  {
    match s.voice
    case Some(prev) =>
      Click(s.(voice := if vp == prev then None else Some(vp)),
            (if vp == prev then [] else [VoiceSelected(vp)]) + [VoiceUnselected(prev), SelectionChanged],
            [])
    case None =>
      match s.hum
      case Some(e) =>
        if e.talker == vp.talker then
          Click(Selection(None, s.addIn, Some(vp)), [VoiceSelected(vp), SelectionChanged, EarUnselected(e)], [])
        else
          Click(Selection(None, s.addIn, None), [TalkerChanged, EarUnselected(e)],
                [SetEarHumVoice(e.talker, e.ear, e.setIdx, e.hum, vp.talker, vp.port)])
      case None =>
        match s.addIn
        case Some(q) =>
          if q.talker == vp.talker then
            Click(Selection(None, None, Some(vp)), [VoiceSelected(vp), SelectionChanged, EarAddInUnselected(q)], [])
          else
            Click(Selection(None, None, None), [TalkerChanged, EarAddInUnselected(q)],
                  [AddVoiceToEarHum(q.talker, q.ear, q.setIdx, q.hum, vp.talker, vp.port)])
        case None =>
          Click(s.(voice := Some(vp)), [VoiceSelected(vp), SelectionChanged], [])
  }

  lemma SelectionNotesConcat(a: seq<Notification>, b: seq<Notification>)
    ensures SelectionNotes(a + b) == SelectionNotes(a) + SelectionNotes(b)
  {
  }

  /** A click on a hum while a hum is selected. */
  lemma HumReclickAnnounces(s: Selection, h: HumPath)
    requires s.hum.Some?
    ensures Announces(s, HumClick(s, h).selection, HumClick(s, h).notes)
    ensures AllDistinct(HumClick(s, h).notes)
  {
    var prev := s.hum.value;
    var c := HumClick(s, h);
    if h == prev {
      assert c.notes == [EarUnselected(prev)] + [SelectionChanged];
      SelectionNotesConcat([EarUnselected(prev)], [SelectionChanged]);
    } else {
      assert c.notes == [EarSelected(h)] + [EarUnselected(prev)] + [SelectionChanged];
      SelectionNotesConcat([EarSelected(h)], [EarUnselected(prev)]);
      SelectionNotesConcat([EarSelected(h)] + [EarUnselected(prev)], [SelectionChanged]);
    }
  }

  /** A click on a hum while no hum is selected and no voice of another
      talker is: the hum becomes selected. */
  lemma HumFirstClickSelects(s: Selection, h: HumPath)
    requires s.hum.None? && (s.voice.None? || s.voice.value.talker == h.talker)
    ensures Announces(s, HumClick(s, h).selection, HumClick(s, h).notes)
    ensures AllDistinct(HumClick(s, h).notes)
  {
    var c := HumClick(s, h);
    var tail := if s.addIn.Some? then [EarAddInUnselected(s.addIn.value), SelectionChanged] else [SelectionChanged];
    if s.voice.None? {
      assert c.notes == [EarSelected(h)] + tail;
    } else {
      assert c.notes == [EarSelected(h), VoiceUnselected(s.voice.value)] + tail;
    }
  }

  /** A click on a hum while no hum is selected and a voice of another
      talker is: the voice is set on the hum. */
  lemma HumFirstClickConnects(s: Selection, h: HumPath)
    requires s.hum.None? && s.voice.Some? && s.voice.value.talker != h.talker
    ensures Announces(s, HumClick(s, h).selection, HumClick(s, h).notes)
    ensures AllDistinct(HumClick(s, h).notes)
  {
    var c := HumClick(s, h);
    if s.addIn.Some? {
      assert c.notes == [TalkerChanged, VoiceUnselected(s.voice.value), EarAddInUnselected(s.addIn.value), SelectionChanged];
    } else {
      assert c.notes == [TalkerChanged, VoiceUnselected(s.voice.value)];
    }
  }

  /** A hum click announces exactly the change it makes, each notification
      once, ends with `SelectionChanged` exactly when a hum selection
      changed, reports `TalkerChanged` exactly when it edits the band, and
      never leaves a hum selected both ways. */
  lemma HumClickAnnounces(s: Selection, h: HumPath)
    ensures Announces(s, HumClick(s, h).selection, HumClick(s, h).notes)
    ensures AllDistinct(HumClick(s, h).notes)
    ensures SelectionChanged in HumClick(s, h).notes <==>
      HumClick(s, h).selection.hum != s.hum || HumClick(s, h).selection.addIn != s.addIn
    ensures SelectionChanged in HumClick(s, h).notes ==> HumClick(s, h).notes[|HumClick(s, h).notes| - 1] == SelectionChanged
    ensures TalkerChanged in HumClick(s, h).notes <==> HumClick(s, h).edits != []
    ensures SingleHum(s) ==> SingleHum(HumClick(s, h).selection)
  {
    if s.hum.Some? {
      HumReclickAnnounces(s, h);
    } else if s.voice.Some? && s.voice.value.talker != h.talker {
      HumFirstClickConnects(s, h);
    } else {
      HumFirstClickSelects(s, h);
    }
  }

  /** A click on an add-in hum while an add-in hum is selected. */
  lemma HumAddInReclickAnnounces(s: Selection, h: HumPath)
    requires s.addIn.Some?
    ensures Announces(s, HumAddInClick(s, h).selection, HumAddInClick(s, h).notes)
    ensures AllDistinct(HumAddInClick(s, h).notes)
  {
    var prev := s.addIn.value;
    var c := HumAddInClick(s, h);
    if h == prev {
      assert c.notes == [EarAddInUnselected(prev), SelectionChanged];
    } else {
      assert c.notes == [EarAddInSelected(h), EarAddInUnselected(prev), SelectionChanged];
    }
  }

  /** A click on an add-in hum while none is selected and no voice of
      another talker is: the hum becomes the add-in selection. */
  lemma HumAddInFirstClickSelects(s: Selection, h: HumPath)
    requires s.addIn.None? && (s.voice.None? || s.voice.value.talker == h.talker)
    ensures Announces(s, HumAddInClick(s, h).selection, HumAddInClick(s, h).notes)
    ensures AllDistinct(HumAddInClick(s, h).notes)
  {
    var c := HumAddInClick(s, h);
    var tail := if s.hum.Some? then [EarUnselected(s.hum.value), SelectionChanged] else [SelectionChanged];
    if s.voice.None? {
      assert c.notes == [EarAddInSelected(h)] + tail;
    } else {
      assert c.notes == [EarAddInSelected(h), VoiceUnselected(s.voice.value)] + tail;
    }
  }

  /** A click on an add-in hum while none is selected and a voice of
      another talker is: the voice is added to the hum. */
  lemma HumAddInFirstClickConnects(s: Selection, h: HumPath)
    requires s.addIn.None? && s.voice.Some? && s.voice.value.talker != h.talker
    ensures Announces(s, HumAddInClick(s, h).selection, HumAddInClick(s, h).notes)
    ensures AllDistinct(HumAddInClick(s, h).notes)
  {
    var c := HumAddInClick(s, h);
    if s.hum.Some? {
      assert c.notes == [TalkerChanged, VoiceUnselected(s.voice.value), EarUnselected(s.hum.value), SelectionChanged];
    } else {
      assert c.notes == [TalkerChanged, VoiceUnselected(s.voice.value)];
    }
  }

  /** The add-in counterpart of `HumClickAnnounces`. */
  lemma HumAddInClickAnnounces(s: Selection, h: HumPath)
    ensures Announces(s, HumAddInClick(s, h).selection, HumAddInClick(s, h).notes)
    ensures AllDistinct(HumAddInClick(s, h).notes)
    ensures SelectionChanged in HumAddInClick(s, h).notes <==>
      HumAddInClick(s, h).selection.hum != s.hum || HumAddInClick(s, h).selection.addIn != s.addIn
    ensures SelectionChanged in HumAddInClick(s, h).notes ==>
      HumAddInClick(s, h).notes[|HumAddInClick(s, h).notes| - 1] == SelectionChanged
    ensures TalkerChanged in HumAddInClick(s, h).notes <==> HumAddInClick(s, h).edits != []
    ensures SingleHum(s) ==> SingleHum(HumAddInClick(s, h).selection)
  {
    if s.addIn.Some? {
      HumAddInReclickAnnounces(s, h);
    } else if s.voice.Some? && s.voice.value.talker != h.talker {
      HumAddInFirstClickConnects(s, h);
    } else {
      HumAddInFirstClickSelects(s, h);
    }
  }

  /** A corrected click on a voice while a voice is selected. */
  lemma VoiceReclickAnnounces(s: Selection, vp: VoicePort)
    requires s.voice.Some?
    ensures Announces(s, VoiceClickCorrected(s, vp).selection, VoiceClickCorrected(s, vp).notes)
    ensures AllDistinct(VoiceClickCorrected(s, vp).notes)
  {
    var prev := s.voice.value;
    var c := VoiceClickCorrected(s, vp);
    if vp == prev {
      assert c.notes == [VoiceUnselected(prev), SelectionChanged];
    } else {
      assert c.notes == [VoiceSelected(vp), VoiceUnselected(prev), SelectionChanged];
    }
  }

  /** A corrected click on a voice while no voice is selected. */
  lemma VoiceFirstClickAnnounces(s: Selection, vp: VoicePort)
    requires s.voice.None?
    ensures Announces(s, VoiceClickCorrected(s, vp).selection, VoiceClickCorrected(s, vp).notes)
    ensures AllDistinct(VoiceClickCorrected(s, vp).notes)
  {
    var c := VoiceClickCorrected(s, vp);
    if s.hum.Some? {
      var e := s.hum.value;
      if e.talker == vp.talker {
        assert c.notes == [VoiceSelected(vp), SelectionChanged, EarUnselected(e)];
      } else {
        assert c.notes == [TalkerChanged, EarUnselected(e)];
      }
    } else if s.addIn.Some? {
      var q := s.addIn.value;
      if q.talker == vp.talker {
        assert c.notes == [VoiceSelected(vp), SelectionChanged, EarAddInUnselected(q)];
      } else {
        assert c.notes == [TalkerChanged, EarAddInUnselected(q)];
      }
    } else {
      assert c.notes == [VoiceSelected(vp), SelectionChanged];
    }
  }

  /** A corrected voice click announces exactly the change it makes, each
      notification once, sends `SelectionChanged` exactly when the voice
      selection changed, reports `TalkerChanged` exactly when it edits the
      band, and never leaves a hum selected both ways. */
  lemma VoiceClickCorrectedAnnounces(s: Selection, vp: VoicePort)
    ensures Announces(s, VoiceClickCorrected(s, vp).selection, VoiceClickCorrected(s, vp).notes)
    ensures AllDistinct(VoiceClickCorrected(s, vp).notes)
    ensures SelectionChanged in VoiceClickCorrected(s, vp).notes <==> VoiceClickCorrected(s, vp).selection.voice != s.voice
    ensures TalkerChanged in VoiceClickCorrected(s, vp).notes <==> VoiceClickCorrected(s, vp).edits != []
    ensures SingleHum(s) ==> SingleHum(VoiceClickCorrected(s, vp).selection)
  {
    if s.voice.Some? {
      VoiceReclickAnnounces(s, vp);
    } else {
      VoiceFirstClickAnnounces(s, vp);
    }
  }

  /** As written, a click on a voice with nothing selected announces the
      voice, and the change of selection, twice. */
  lemma VoiceClickRepeats(vp: VoicePort)
    ensures VoiceClick(Selection(None, None, None), vp).notes ==
      [VoiceSelected(vp), SelectionChanged, VoiceSelected(vp), SelectionChanged]
    ensures !AllDistinct(VoiceClick(Selection(None, None, None), vp).notes)
    ensures VoiceClickCorrected(Selection(None, None, None), vp).notes == [VoiceSelected(vp), SelectionChanged]
  {
    var notes := VoiceClick(Selection(None, None, None), vp).notes;
    assert notes[0] == notes[2];
  }

  /** As written, a click on a voice while an add-in hum of another talker
      is selected adds the voice to the hum and leaves the voice selected,
      and announces the add-in hum as an unselected hum; the corrected
      click leaves nothing selected and announces the add-in hum's
      release. */
  lemma VoiceClickMisannouncesAddIn(q: HumPath, vp: VoicePort)
    requires q.talker != vp.talker
    ensures VoiceClick(Selection(None, Some(q), None), vp).notes ==
      [VoiceSelected(vp), SelectionChanged, TalkerChanged, EarUnselected(q)]
    ensures VoiceClick(Selection(None, Some(q), None), vp).selection == Selection(None, None, Some(vp))
    ensures !Announces(Selection(None, Some(q), None), VoiceClick(Selection(None, Some(q), None), vp).selection,
                       VoiceClick(Selection(None, Some(q), None), vp).notes)
    ensures VoiceClickCorrected(Selection(None, Some(q), None), vp) ==
      Click(Selection(None, None, None), [TalkerChanged, EarAddInUnselected(q)],
            [AddVoiceToEarHum(q.talker, q.ear, q.setIdx, q.hum, vp.talker, vp.port)])
  {
    var s := Selection(None, Some(q), None);
    var c := VoiceClick(s, vp);
    assert EarUnselected(q) in SelectionNotes(c.notes);
    assert EarUnselected(q) !in Changes(s, c.selection);
  }

  /** `show_voice`: points the view at a voice without selecting it: a
      `TalkSelected` for the voice, then `SelectionChanged`, and no hum or
      voice selection announced. */
  function ShowVoice(talkerId: nat, port: nat): (r: seq<Notification>)
    ensures r == [TalkSelected(VoicePort(talkerId, port)), SelectionChanged]
    ensures SelectionNotes(r) == {}
  {
    [TalkSelected(VoicePort(talkerId, port)), SelectionChanged]
  }

  /** Showing a voice announces exactly the change of no selection: every
      selection stays as it is. */
  lemma ShowVoiceKeepsSelection(s: Selection, talkerId: nat, port: nat)
    ensures Announces(s, s, ShowVoice(talkerId, port))
  {
  }

  class GraphPresenter {
    var selectedHum: Option<HumPath>
    var selectedHumAddIn: Option<HumPath>
    var selectedVoice: Option<VoicePort>
    var newTalker: Option<nat>
    var selectedTalkers: set<nat>
    var minimizedTalkers: set<nat>
    var controlKeyPressed: bool
    var shiftKeyPressed: bool
    var altKeyPressed: bool
    const sessionPresenter: SessionPresenter

    ghost predicate Valid() reads this {
      SingleHum(Current())
    }

    function Current(): Selection reads this {
      Selection(selectedHum, selectedHumAddIn, selectedVoice)
    }

    /** The fields no selection click changes. */
    ghost function Others(): (Option<nat>, set<nat>, set<nat>, bool, bool, bool) reads this {
      (newTalker, selectedTalkers, minimizedTalkers, controlKeyPressed, shiftKeyPressed, altKeyPressed)
    }

    ghost function Keys(): (bool, bool, bool) reads this {
      (controlKeyPressed, shiftKeyPressed, altKeyPressed)
    }

    ghost function AllButKeys(): (Selection, Option<nat>, set<nat>, set<nat>) reads this {
      (Current(), newTalker, selectedTalkers, minimizedTalkers)
    }

    constructor (sessionPresenter: SessionPresenter)
      ensures Valid()
      ensures Current() == Selection(None, None, None) && newTalker == None
      ensures selectedTalkers == {} && minimizedTalkers == {}
      ensures Keys() == (false, false, false)
      ensures this.sessionPresenter == sessionPresenter
    {
      selectedHum := None;
      selectedHumAddIn := None;
      selectedVoice := None;
      newTalker := None;
      selectedTalkers := {};
      minimizedTalkers := {};
      controlKeyPressed := false;
      shiftKeyPressed := false;
      altKeyPressed := false;
      this.sessionPresenter := sessionPresenter;
    }

    function IsTalkerSelected(talkerId: nat): (r: bool) reads this
      ensures r <==> talkerId in selectedTalkers
    {
      talkerId in selectedTalkers
    }

    function IsTalkerMinimized(talkerId: nat): (r: bool) reads this
      ensures r <==> talkerId in minimizedTalkers
    {
      talkerId in minimizedTalkers
    }

    function IsVoiceSelected(talkerId: nat, port: nat): (r: bool) reads this
      ensures r <==> selectedVoice == Some(VoicePort(talkerId, port))
    {
      match selectedVoice
      case None => false
      case Some(v) => v.talker == talkerId && v.port == port
    }

    function IsEarHumSelected(h: HumPath): (r: bool) reads this
      ensures r <==> selectedHum == Some(h)
    {
      match selectedHum
      case None => false
      case Some(p) => p.talker == h.talker && p.ear == h.ear && p.setIdx == h.setIdx && p.hum == h.hum
    }

    function IsEarHumAddInSelected(h: HumPath): (r: bool) reads this
      ensures r <==> selectedHumAddIn == Some(h)
    {
      match selectedHumAddIn
      case None => false
      case Some(p) => p.talker == h.talker && p.ear == h.ear && p.setIdx == h.setIdx && p.hum == h.hum
    }

    method SetControlKeyPressed(v: bool)
      modifies this
      ensures controlKeyPressed == v && shiftKeyPressed == old(shiftKeyPressed) && altKeyPressed == old(altKeyPressed)
      ensures AllButKeys() == old(AllButKeys())
    {
      controlKeyPressed := v;
    }

    method SetShiftKeyPressed(v: bool)
      modifies this
      ensures shiftKeyPressed == v && controlKeyPressed == old(controlKeyPressed) && altKeyPressed == old(altKeyPressed)
      ensures AllButKeys() == old(AllButKeys())
    {
      shiftKeyPressed := v;
    }

    method SetAltKeyPressed(v: bool)
      modifies this
      ensures altKeyPressed == v && controlKeyPressed == old(controlKeyPressed) && shiftKeyPressed == old(shiftKeyPressed)
      ensures AllButKeys() == old(AllButKeys())
    {
      altKeyPressed := v;
    }

    /** `select_talker`: toggles the talker, or makes it the only selected
        one, and ends with `SelectionChanged`. */
    method SelectTalker(talkerId: nat) returns (r: seq<Notification>)
      modifies this
      ensures selectedTalkers == TalkerSelection(old(selectedTalkers), controlKeyPressed, talkerId)
      ensures |r| >= 2 && r[|r| - 1] == SelectionChanged
      ensures Toggles(old(selectedTalkers), controlKeyPressed) && talkerId in old(selectedTalkers) ==>
        r == [TalkerUnselected(talkerId), SelectionChanged]
      ensures Toggles(old(selectedTalkers), controlKeyPressed) && talkerId !in old(selectedTalkers) ==>
        r == [TalkerSelected(talkerId), SelectionChanged]
      ensures !Toggles(old(selectedTalkers), controlKeyPressed) ==>
        UnselectsAll(r[..|r| - 2], old(selectedTalkers)) && r[|r| - 2] == TalkerSelected(talkerId)
      ensures IsTalkerSelected(talkerId) <==>
        !(old(IsTalkerSelected(talkerId)) && Toggles(old(selectedTalkers), controlKeyPressed))
      ensures !Toggles(old(selectedTalkers), controlKeyPressed) ==> forall t :: IsTalkerSelected(t) ==> t == talkerId
      ensures Current() == old(Current()) && newTalker == old(newTalker) && minimizedTalkers == old(minimizedTalkers)
      ensures Keys() == old(Keys())
    {
      ghost var unselections := [];
      if controlKeyPressed || |selectedTalkers| < 2 {
        if talkerId in selectedTalkers {
          selectedTalkers := selectedTalkers - {talkerId};
          r := [TalkerUnselected(talkerId)];
        } else {
          selectedTalkers := selectedTalkers + {talkerId};
          r := [TalkerSelected(talkerId)];
        }
      } else {
        r := UnselectAll(selectedTalkers);
        unselections := r;
        selectedTalkers := {talkerId};
        r := r + [TalkerSelected(talkerId)];
      }
      r := r + [SelectionChanged];
      assert !Toggles(old(selectedTalkers), controlKeyPressed) ==> r[..|r| - 2] == unselections;
    }

    /** `minimize_talker`: toggles the talker in the minimized set. */
    method MinimizeTalker(talkerId: nat) returns (r: seq<Notification>)
      modifies this
      ensures minimizedTalkers == Toggled(old(minimizedTalkers), talkerId)
      ensures IsTalkerMinimized(talkerId) <==> !old(IsTalkerMinimized(talkerId))
      ensures forall t :: t != talkerId ==> (IsTalkerMinimized(t) <==> old(IsTalkerMinimized(t)))
      ensures r == [TalkerChanged]
      ensures Current() == old(Current()) && newTalker == old(newTalker) && selectedTalkers == old(selectedTalkers)
      ensures Keys() == old(Keys())
    {
      if talkerId in minimizedTalkers {
        minimizedTalkers := minimizedTalkers - {talkerId};
      } else {
        minimizedTalkers := minimizedTalkers + {talkerId};
      }
      r := [TalkerChanged];
    }

    /** `set_talker_name`: renames the talker through its identifier. */
    method SetTalkerName(talker: Identifier, v: string) returns (r: seq<Notification>)
      modifies talker
      ensures talker.name == v && talker.id == old(talker.id)
      ensures r == [TalkerRenamed(talker.id), TalkerChanged]
    {
      talker.SetName(v);
      r := [TalkerRenamed(talker.id), TalkerChanged];
    }

    /** `notify_talker_changed`: a `TalkerChanged` straight to the session
        presenter. */
    method NotifyTalkerChanged()
      modifies sessionPresenter
      ensures sessionPresenter.notices == old(sessionPresenter.notices) + [TalkerChanged]
      ensures sessionPresenter.operations == old(sessionPresenter.operations)
    {
      sessionPresenter.Notify(TalkerChanged);
    }

    method SetTalkerData(talkerId: nat, data: string, fly: bool) returns (r: seq<Notification>)
      modifies sessionPresenter
      ensures sessionPresenter.operations == old(sessionPresenter.operations) + [Operation.SetTalkerData(talkerId, data)]
      ensures sessionPresenter.notices == old(sessionPresenter.notices)
      ensures r == if fly then [] else [TalkerChanged]
    {
      sessionPresenter.ModifyBand(Operation.SetTalkerData(talkerId, data));
      if !fly {
        return [TalkerChanged];
      }
      r := [];
    }

    method SetTalkerEarTalkValue(h: HumPath, talkIdx: nat, value: real, fly: bool) returns (r: seq<Notification>)
      modifies sessionPresenter
      ensures sessionPresenter.operations ==
        old(sessionPresenter.operations) + [SetEarTalkValue(h.talker, h.ear, h.setIdx, h.hum, talkIdx, value)]
      ensures sessionPresenter.notices == old(sessionPresenter.notices)
      ensures r == if fly then [] else [TalkerChanged]
    {
      sessionPresenter.ModifyBand(SetEarTalkValue(h.talker, h.ear, h.setIdx, h.hum, talkIdx, value));
      if !fly {
        return [TalkerChanged];
      }
      r := [];
    }


    /** `select_ear_hum`. */
    method SelectEarHum(h: HumPath) returns (r: seq<Notification>)
      requires Valid()
      modifies this, sessionPresenter
      ensures Valid()
      ensures Current() == HumClick(old(Current()), h).selection
      ensures r == HumClick(old(Current()), h).notes
      ensures sessionPresenter.operations == old(sessionPresenter.operations) + HumClick(old(Current()), h).edits
      ensures sessionPresenter.notices == old(sessionPresenter.notices)
      ensures Others() == old(Others())
    {
      HumClickAnnounces(Current(), h);
      if selectedHum.Some? {
        r := ReclickHum(h);
      } else {
        r := FirstClickHum(h);
      }
    }

    /** The branch of `select_ear_hum` with a hum selected. */
    method ReclickHum(h: HumPath) returns (r: seq<Notification>)
      requires selectedHum.Some?
      modifies this
      ensures Current() == HumClick(old(Current()), h).selection
      ensures r == HumClick(old(Current()), h).notes
      ensures HumClick(old(Current()), h).edits == []
      ensures Others() == old(Others())
    {
      var prev := selectedHum.value;
      r := [];
      if h == prev {
        selectedHum := None;
      } else {
        selectedHum := Some(h);
        r := r + [EarSelected(h)];
      }
      r := r + [EarUnselected(prev)];
      r := r + [SelectionChanged];
    }

    /** The branch of `select_ear_hum` with no hum selected. */
    method FirstClickHum(h: HumPath) returns (r: seq<Notification>)
      requires selectedHum.None?
      modifies this, sessionPresenter
      ensures Current() == HumClick(old(Current()), h).selection
      ensures r == HumClick(old(Current()), h).notes
      ensures sessionPresenter.operations == old(sessionPresenter.operations) + HumClick(old(Current()), h).edits
      ensures sessionPresenter.notices == old(sessionPresenter.notices)
      ensures Others() == old(Others())
    {
      r := [];
      var changed := false;
      match selectedVoice {
        case Some(v) =>
          if v.talker == h.talker {
            selectedHum := Some(h);
            r := r + [EarSelected(h)];
            changed := true;
          } else {
            sessionPresenter.ModifyBand(SetEarHumVoice(h.talker, h.ear, h.setIdx, h.hum, v.talker, v.port));
            r := r + [TalkerChanged];
          }
          selectedVoice := None;
          r := r + [VoiceUnselected(v)];
        case None =>
          selectedHum := Some(h);
          r := r + [EarSelected(h)];
          changed := true;
      }
      if selectedHumAddIn.Some? {
        var prev := selectedHumAddIn.value;
        selectedHumAddIn := None;
        r := r + [EarAddInUnselected(prev)];
        changed := true;
      }
      if changed {
        r := r + [SelectionChanged];
      }
    }

    /** `select_ear_hum_add_in`. */
    method SelectEarHumAddIn(h: HumPath) returns (r: seq<Notification>)
      requires Valid()
      modifies this, sessionPresenter
      ensures Valid()
      ensures Current() == HumAddInClick(old(Current()), h).selection
      ensures r == HumAddInClick(old(Current()), h).notes
      ensures sessionPresenter.operations == old(sessionPresenter.operations) + HumAddInClick(old(Current()), h).edits
      ensures sessionPresenter.notices == old(sessionPresenter.notices)
      ensures Others() == old(Others())
    {
      HumAddInClickAnnounces(Current(), h);
      if selectedHumAddIn.Some? {
        r := ReclickHumAddIn(h);
      } else {
        r := FirstClickHumAddIn(h);
      }
    }

    /** The branch of `select_ear_hum_add_in` with an add-in hum selected. */
    method ReclickHumAddIn(h: HumPath) returns (r: seq<Notification>)
      requires selectedHumAddIn.Some?
      modifies this
      ensures Current() == HumAddInClick(old(Current()), h).selection
      ensures r == HumAddInClick(old(Current()), h).notes
      ensures HumAddInClick(old(Current()), h).edits == []
      ensures Others() == old(Others())
    {
      var prev := selectedHumAddIn.value;
      r := [];
      if h == prev {
        selectedHumAddIn := None;
      } else {
        selectedHumAddIn := Some(h);
        r := r + [EarAddInSelected(h)];
      }
      r := r + [EarAddInUnselected(prev)];
      r := r + [SelectionChanged];
    }

    /** The branch of `select_ear_hum_add_in` with no add-in hum selected. */
    method FirstClickHumAddIn(h: HumPath) returns (r: seq<Notification>)
      requires selectedHumAddIn.None?
      modifies this, sessionPresenter
      ensures Current() == HumAddInClick(old(Current()), h).selection
      ensures r == HumAddInClick(old(Current()), h).notes
      ensures sessionPresenter.operations == old(sessionPresenter.operations) + HumAddInClick(old(Current()), h).edits
      ensures sessionPresenter.notices == old(sessionPresenter.notices)
      ensures Others() == old(Others())
    {
      r := [];
      var changed := false;
      match selectedVoice {
        case Some(v) =>
          if v.talker == h.talker {
            selectedHumAddIn := Some(h);
            r := r + [EarAddInSelected(h)];
            changed := true;
          } else {
            sessionPresenter.ModifyBand(AddVoiceToEarHum(h.talker, h.ear, h.setIdx, h.hum, v.talker, v.port));
            r := r + [TalkerChanged];
          }
          selectedVoice := None;
          r := r + [VoiceUnselected(v)];
        case None =>
          selectedHumAddIn := Some(h);
          r := r + [EarAddInSelected(h)];
          changed := true;
      }
      if selectedHum.Some? {
        var prev := selectedHum.value;
        selectedHum := None;
        r := r + [EarUnselected(prev)];
        changed := true;
      }
      if changed {
        r := r + [SelectionChanged];
      }
    }

    /** `select_voice`, as written. */
    method SelectVoice(vp: VoicePort) returns (r: seq<Notification>)
      requires Valid()
      modifies this, sessionPresenter
      ensures Valid()
      ensures Current() == VoiceClick(old(Current()), vp).selection
      ensures r == VoiceClick(old(Current()), vp).notes
      ensures sessionPresenter.operations == old(sessionPresenter.operations) + VoiceClick(old(Current()), vp).edits
      ensures sessionPresenter.notices == old(sessionPresenter.notices)
      ensures Others() == old(Others())
    {
      if selectedVoice.Some? {
        r := ReclickVoice(vp);
      } else {
        var humNotes := VoiceFromHum(vp);
        var addInNotes := VoiceFromAddIn(vp);
        r := humNotes + addInNotes;
      }
    }

    /** The branch of `select_voice` with a voice selected, in both the
        written and the corrected versions. */
    method ReclickVoice(vp: VoicePort) returns (r: seq<Notification>)
      requires selectedVoice.Some?
      modifies this
      ensures Current() == VoiceClick(old(Current()), vp).selection
      ensures Current() == VoiceClickCorrected(old(Current()), vp).selection
      ensures r == VoiceClick(old(Current()), vp).notes == VoiceClickCorrected(old(Current()), vp).notes
      ensures VoiceClick(old(Current()), vp).edits == VoiceClickCorrected(old(Current()), vp).edits == []
      ensures Others() == old(Others())
    {
      var prev := selectedVoice.value;
      r := [];
      if vp == prev {
        selectedVoice := None;
      } else {
        selectedVoice := Some(vp);
        r := r + [VoiceSelected(vp)];
      }
      r := r + [VoiceUnselected(prev)];
      r := r + [SelectionChanged];
    }

    /** The first ear block of `select_voice` without a voice selected: the
        selected hum. */
    method VoiceFromHum(vp: VoicePort) returns (r: seq<Notification>)
      modifies this, sessionPresenter
      ensures r == VoiceBlockNotes(old(selectedHum), vp)
      ensures selectedHum == None && selectedHumAddIn == old(selectedHumAddIn)
      ensures old(selectedHum).Some? && old(selectedHum).value.talker != vp.talker ==>
        && selectedVoice == old(selectedVoice)
        && sessionPresenter.operations == old(sessionPresenter.operations) +
             [SetEarHumVoice(old(selectedHum).value.talker, old(selectedHum).value.ear, old(selectedHum).value.setIdx,
                             old(selectedHum).value.hum, vp.talker, vp.port)]
      ensures old(selectedHum).None? || old(selectedHum).value.talker == vp.talker ==>
        selectedVoice == Some(vp) && sessionPresenter.operations == old(sessionPresenter.operations)
      ensures sessionPresenter.notices == old(sessionPresenter.notices)
      ensures Others() == old(Others())
    {
      match selectedHum {
        case Some(e) =>
          if vp.talker == e.talker {
            selectedVoice := Some(vp);
            r := [VoiceSelected(vp), SelectionChanged];
          } else {
            sessionPresenter.ModifyBand(SetEarHumVoice(e.talker, e.ear, e.setIdx, e.hum, vp.talker, vp.port));
            r := [TalkerChanged];
          }
          selectedHum := None;
          r := r + [EarUnselected(e)];
        case None =>
          selectedVoice := Some(vp);
          r := [VoiceSelected(vp), SelectionChanged];
      }
    }

    /** The second ear block of `select_voice` without a voice selected:
        the selected add-in hum, announced as an unselected hum. */
    method VoiceFromAddIn(vp: VoicePort) returns (r: seq<Notification>)
      modifies this, sessionPresenter
      ensures r == VoiceBlockNotes(old(selectedHumAddIn), vp)
      ensures selectedHumAddIn == None && selectedHum == old(selectedHum)
      ensures old(selectedHumAddIn).Some? && old(selectedHumAddIn).value.talker != vp.talker ==>
        && selectedVoice == old(selectedVoice)
        && sessionPresenter.operations == old(sessionPresenter.operations) +
             [AddVoiceToEarHum(old(selectedHumAddIn).value.talker, old(selectedHumAddIn).value.ear,
                               old(selectedHumAddIn).value.setIdx, old(selectedHumAddIn).value.hum, vp.talker, vp.port)]
      ensures old(selectedHumAddIn).None? || old(selectedHumAddIn).value.talker == vp.talker ==>
        selectedVoice == Some(vp) && sessionPresenter.operations == old(sessionPresenter.operations)
      ensures sessionPresenter.notices == old(sessionPresenter.notices)
      ensures Others() == old(Others())
    {
      match selectedHumAddIn {
        case Some(e) =>
          if vp.talker == e.talker {
            selectedVoice := Some(vp);
            r := [VoiceSelected(vp), SelectionChanged];
          } else {
            sessionPresenter.ModifyBand(AddVoiceToEarHum(e.talker, e.ear, e.setIdx, e.hum, vp.talker, vp.port));
            r := [TalkerChanged];
          }
          selectedHumAddIn := None;
          r := r + [EarUnselected(e)];
        case None =>
          selectedVoice := Some(vp);
          r := [VoiceSelected(vp), SelectionChanged];
      }
    }

    /** `select_voice` as evidently intended. */
    method SelectVoiceCorrected(vp: VoicePort) returns (r: seq<Notification>)
      requires Valid()
      modifies this, sessionPresenter
      ensures Valid()
      ensures Current() == VoiceClickCorrected(old(Current()), vp).selection
      ensures r == VoiceClickCorrected(old(Current()), vp).notes
      ensures sessionPresenter.operations == old(sessionPresenter.operations) + VoiceClickCorrected(old(Current()), vp).edits
      ensures sessionPresenter.notices == old(sessionPresenter.notices)
      ensures Others() == old(Others())
    {
      VoiceClickCorrectedAnnounces(Current(), vp);
      if selectedVoice.Some? {
        r := ReclickVoice(vp);
      } else if selectedHum.Some? {
        var e := selectedHum.value;
        if vp.talker == e.talker {
          selectedVoice := Some(vp);
          r := [VoiceSelected(vp), SelectionChanged];
        } else {
          sessionPresenter.ModifyBand(SetEarHumVoice(e.talker, e.ear, e.setIdx, e.hum, vp.talker, vp.port));
          r := [TalkerChanged];
        }
        selectedHum := None;
        r := r + [EarUnselected(e)];
      } else if selectedHumAddIn.Some? {
        var q := selectedHumAddIn.value;
        if vp.talker == q.talker {
          selectedVoice := Some(vp);
          r := [VoiceSelected(vp), SelectionChanged];
        } else {
          sessionPresenter.ModifyBand(AddVoiceToEarHum(q.talker, q.ear, q.setIdx, q.hum, vp.talker, vp.port));
          r := [TalkerChanged];
        }
        selectedHumAddIn := None;
        r := r + [EarAddInUnselected(q)];
      } else {
        selectedVoice := Some(vp);
        r := [VoiceSelected(vp), SelectionChanged];
      }
    }

    /** `add_ear_talk`: with a voice selected, the voice is added to the
        hum; otherwise nothing happens. */
    method AddEarTalk(h: HumPath) returns (r: seq<Notification>)
      modifies sessionPresenter
      ensures selectedVoice.Some? ==>
        && sessionPresenter.operations == old(sessionPresenter.operations) +
             [AddVoiceToEarHum(h.talker, h.ear, h.setIdx, h.hum, selectedVoice.value.talker, selectedVoice.value.port)]
        && r == [TalkerChanged]
      ensures selectedVoice.None? ==> sessionPresenter.operations == old(sessionPresenter.operations) && r == []
      ensures sessionPresenter.notices == old(sessionPresenter.notices)
    {
      if selectedVoice.Some? {
        var v := selectedVoice.value;
        sessionPresenter.ModifyBand(AddVoiceToEarHum(h.talker, h.ear, h.setIdx, h.hum, v.talker, v.port));
        return [TalkerChanged];
      }
      r := [];
    }

    method SupEarTalk(h: HumPath, talkIdx: nat) returns (r: seq<Notification>)
      modifies sessionPresenter
      ensures sessionPresenter.operations == old(sessionPresenter.operations) + [Operation.SupEarTalk(h.talker, h.ear, h.setIdx, h.hum, talkIdx)]
      ensures sessionPresenter.notices == old(sessionPresenter.notices)
      ensures r == [TalkerChanged]
    {
      sessionPresenter.ModifyBand(Operation.SupEarTalk(h.talker, h.ear, h.setIdx, h.hum, talkIdx));
      r := [TalkerChanged];
    }

    /** `add_ear_set`: a new set holding the selected voice in the hum the
        session presenter finds compatible, which is always hum 0
        (src/session_presenter.rs:157-166); without a voice selected, a
        set holding the value 0. */
    method AddEarSet(talkerId: nat, earIdx: nat) returns (r: seq<Notification>)
      modifies sessionPresenter
      ensures selectedVoice.Some? ==>
        sessionPresenter.operations == old(sessionPresenter.operations) +
          [AddSetVoiceToEar(talkerId, earIdx, 0, selectedVoice.value.talker, selectedVoice.value.port)]
      ensures selectedVoice.None? ==>
        sessionPresenter.operations == old(sessionPresenter.operations) + [AddSetValueToEar(talkerId, earIdx, 0, 0.0)]
      ensures sessionPresenter.notices == old(sessionPresenter.notices)
      ensures r == [TalkerChanged]
    {
      if selectedVoice.Some? {
        var v := selectedVoice.value;
        var humIdx := 0;
        sessionPresenter.ModifyBand(AddSetVoiceToEar(talkerId, earIdx, humIdx, v.talker, v.port));
      } else {
        sessionPresenter.ModifyBand(AddSetValueToEar(talkerId, earIdx, 0, 0.0));
      }
      r := [TalkerChanged];
    }

    method SupEarSet(talkerId: nat, earIdx: nat, setIdx: nat) returns (r: seq<Notification>)
      modifies sessionPresenter
      ensures sessionPresenter.operations == old(sessionPresenter.operations) + [Operation.SupEarSet(talkerId, earIdx, setIdx)]
      ensures sessionPresenter.notices == old(sessionPresenter.notices)
      ensures r == [TalkerChanged]
    {
      sessionPresenter.ModifyBand(Operation.SupEarSet(talkerId, earIdx, setIdx));
      r := [TalkerChanged];
    }

    /** `add_new_talker`: announces the selected voice and hum as
        unselected (without clearing them), makes port 0 of the previously
        added talker the selected voice, and records the new talker. */
    method AddNewTalker(talkerId: nat) returns (r: seq<Notification>)
      requires Valid()
      modifies this
      ensures Valid()
      ensures newTalker == Some(talkerId)
      ensures selectedVoice == if old(newTalker).Some? then Some(VoicePort(old(newTalker).value, 0)) else old(selectedVoice)
      ensures selectedHum == old(selectedHum) && selectedHumAddIn == old(selectedHumAddIn)
      ensures r == (if old(selectedVoice).Some? then [VoiceUnselected(old(selectedVoice).value)] else [])
                 + (if old(selectedHum).Some? then [EarUnselected(old(selectedHum).value)] else [])
                 + (if old(newTalker).Some? then [VoiceSelected(VoicePort(old(newTalker).value, 0))] else [])
                 + [TalkerChanged]
      ensures selectedTalkers == old(selectedTalkers) && minimizedTalkers == old(minimizedTalkers) && Keys() == old(Keys())
    {
      r := [];
      match selectedVoice {
        case None =>
        case Some(v) => r := r + [VoiceUnselected(v)];
      }
      match selectedHum {
        case None =>
        case Some(e) => r := r + [EarUnselected(e)];
      }
      match newTalker {
        case None =>
        case Some(t) =>
          selectedVoice := Some(VoicePort(t, 0));
          r := r + [VoiceSelected(VoicePort(t, 0))];
      }
      newTalker := Some(talkerId);
      r := r + [TalkerChanged];
    }

    method SupTalker(talkerId: nat) returns (r: seq<Notification>)
      modifies sessionPresenter
      ensures sessionPresenter.operations == old(sessionPresenter.operations) + [Operation.SupTalker(talkerId)]
      ensures sessionPresenter.notices == old(sessionPresenter.notices)
      ensures r == [TalkerChanged]
    {
      sessionPresenter.ModifyBand(Operation.SupTalker(talkerId));
      r := [TalkerChanged];
    }
  }
}
