/** The older graph controler of the GUI (src/graph_controler.rs): it keeps
    the set of selected talkers and the modifier keys, and sends its
    notifications straight to the session presenter rather than returning
    them. The talker edits it asks for are made by the talker itself; the
    model receives their outcome as a parameter. */
module GraphControlers {
  import opened Wrappers
  import opened EventBus
  import opened Identifiers
  import opened GraphPresenters

  class GraphControler {
    var selectedTalkers: set<nat>
    var controlKeyPressed: bool
    var shiftKeyPressed: bool
    var altKeyPressed: bool
    const sessionPresenter: SessionPresenter

    constructor (sessionPresenter: SessionPresenter)
      ensures selectedTalkers == {}
      ensures !controlKeyPressed && !shiftKeyPressed && !altKeyPressed
      ensures this.sessionPresenter == sessionPresenter
    {
      selectedTalkers := {};
      controlKeyPressed := false;
      shiftKeyPressed := false;
      altKeyPressed := false;
      this.sessionPresenter := sessionPresenter;
    }

    method SetControlKeyPressed(v: bool)
      modifies this
      ensures controlKeyPressed == v && shiftKeyPressed == old(shiftKeyPressed) && altKeyPressed == old(altKeyPressed)
      ensures selectedTalkers == old(selectedTalkers)
    {
      controlKeyPressed := v;
    }

    method SetShiftKeyPressed(v: bool)
      modifies this
      ensures shiftKeyPressed == v && controlKeyPressed == old(controlKeyPressed) && altKeyPressed == old(altKeyPressed)
      ensures selectedTalkers == old(selectedTalkers)
    {
      shiftKeyPressed := v;
    }

    method SetAltKeyPressed(v: bool)
      modifies this
      ensures altKeyPressed == v && controlKeyPressed == old(controlKeyPressed) && shiftKeyPressed == old(shiftKeyPressed)
      ensures selectedTalkers == old(selectedTalkers)
    {
      altKeyPressed := v;
    }

    /** `set_selected_talker`: the selection rule of the graph presenter's
        `select_talker`, with the notifications sent one by one and no
        `SelectionChanged` at the end. */
    method SetSelectedTalker(talkerId: nat)
      modifies this, sessionPresenter
      ensures selectedTalkers == TalkerSelection(old(selectedTalkers), controlKeyPressed, talkerId)
      ensures |sessionPresenter.notices| > |old(sessionPresenter.notices)|
      ensures sessionPresenter.notices[..|old(sessionPresenter.notices)|] == old(sessionPresenter.notices)
      ensures Toggles(old(selectedTalkers), controlKeyPressed) && talkerId in old(selectedTalkers) ==>
        sessionPresenter.notices == old(sessionPresenter.notices) + [TalkerUnselected(talkerId)]
      ensures Toggles(old(selectedTalkers), controlKeyPressed) && talkerId !in old(selectedTalkers) ==>
        sessionPresenter.notices == old(sessionPresenter.notices) + [TalkerSelected(talkerId)]
      ensures !Toggles(old(selectedTalkers), controlKeyPressed) ==>
        && UnselectsAll(sessionPresenter.notices[|old(sessionPresenter.notices)|..|sessionPresenter.notices| - 1], old(selectedTalkers))
        && sessionPresenter.notices[|sessionPresenter.notices| - 1] == TalkerSelected(talkerId)
      ensures sessionPresenter.operations == old(sessionPresenter.operations)
      ensures controlKeyPressed == old(controlKeyPressed) && shiftKeyPressed == old(shiftKeyPressed)
      ensures altKeyPressed == old(altKeyPressed)
    {
      if controlKeyPressed || |selectedTalkers| < 2 {
        if talkerId in selectedTalkers {
          selectedTalkers := selectedTalkers - {talkerId};
          sessionPresenter.Notify(TalkerUnselected(talkerId));
        } else {
          selectedTalkers := selectedTalkers + {talkerId};
          sessionPresenter.Notify(TalkerSelected(talkerId));
        }
      } else {
        ghost var before := sessionPresenter.notices;
        var unselections := UnselectAll(selectedTalkers);
        sessionPresenter.NotifyEach(unselections);
        selectedTalkers := {talkerId};
        sessionPresenter.Notify(TalkerSelected(talkerId));
        assert sessionPresenter.notices == before + unselections + [TalkerSelected(talkerId)];
        assert sessionPresenter.notices[|before|..|sessionPresenter.notices| - 1] == unselections;
      }
    }

    /** `set_talker_name`: renames the talker and sends `TalkerRenamed`. */
    method SetTalkerName(talker: Identifier, v: string)
      modifies talker, sessionPresenter
      ensures talker.name == v && talker.id == old(talker.id)
      ensures sessionPresenter.notices == old(sessionPresenter.notices) + [TalkerRenamed(talker.id)]
      ensures sessionPresenter.operations == old(sessionPresenter.operations)
    {
      talker.SetName(v);
      sessionPresenter.Notify(TalkerRenamed(talker.id));
    }

    /** The reporting shared by `set_talker_data` and
        `set_talker_ear_value_by_index`: a success sends `TalkerChanged`
        unless the change is made on the fly, a failure sends its error. */
    method SetTalkerValue(outcome: Result<()>, fly: bool)
      modifies sessionPresenter
      ensures outcome.Ok? && !fly ==> sessionPresenter.notices == old(sessionPresenter.notices) + [TalkerChanged]
      ensures outcome.Ok? && fly ==> sessionPresenter.notices == old(sessionPresenter.notices)
      ensures outcome.Err? ==> sessionPresenter.notices == old(sessionPresenter.notices) + [Error(outcome.msg)]
      ensures sessionPresenter.operations == old(sessionPresenter.operations)
    {
      match outcome
      case Ok(_) =>
        if !fly {
          sessionPresenter.Notify(TalkerChanged);
        }
      case Err(e) =>
        sessionPresenter.NotifyError(e);
    }

    /** `add_talker_ear_value_by_index`: a success always sends
        `TalkerChanged`, a failure its error. */
    method AddTalkerEarValue(outcome: Result<()>)
      modifies sessionPresenter
      ensures outcome.Ok? ==> sessionPresenter.notices == old(sessionPresenter.notices) + [TalkerChanged]
      ensures outcome.Err? ==> sessionPresenter.notices == old(sessionPresenter.notices) + [Error(outcome.msg)]
      ensures sessionPresenter.operations == old(sessionPresenter.operations)
    {
      match outcome
      case Ok(_) =>
        sessionPresenter.Notify(TalkerChanged);
      case Err(e) =>
        sessionPresenter.NotifyError(e);
    }
  }
}
