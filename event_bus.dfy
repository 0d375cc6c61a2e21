/** The notifications the session's event bus carries to the views
    (session/src/event_bus.rs:8-37). Ids and indices are naturals, the `f32`
    volume a real. The `State` notification is not part of this model. The
    graph presenter and controler also send `TalkerSelected` and
    `TalkerUnselected`, which the enum as given lacks; they are added here. */
module EventBus {
  /** A hum of an ear: the talker, the ear, the set and the hum index. */
  datatype HumPath = HumPath(talker: nat, ear: nat, setIdx: nat, hum: nat)

  /** A voice of a talker: the talker and the voice port. */
  datatype VoicePort = VoicePort(talker: nat, port: nat)

  datatype Notification =
    | NewSession(filename: string)
    | SessionSaved
    | SessionSavedAs(filename: string)
    | Tick(tick: int)
    | TimeRange(start: int, end: int)
    | Pause
    | End
    | Volume(volume: real)
    | TalkersRange(range: seq<(string, seq<(string, string)>)>)
    | NewTalker
    | TalkerChanged
    | TalkerRenamed(id: nat)
    | TalkerSelected(id: nat)
    | TalkerUnselected(id: nat)
    | EarSelected(hum: HumPath)
    | EarUnselected(hum: HumPath)
    | EarAddInSelected(hum: HumPath)
    | EarAddInUnselected(hum: HumPath)
    | EarValueSelected(hum: HumPath)
    | VoiceSelected(voice: VoicePort)
    | VoiceUnselected(voice: VoicePort)
    | TalkSelected(voice: VoicePort)
    | SelectionChanged
    | EditTalkerData(id: nat)
    | CurveAdded
    | CurveRemoved
    | Info(message: string)
    | Warning(message: string)
    | Error(message: string)
  {
    /** The notifications that report a hum or voice being selected or
        unselected. */
    predicate IsSelectionNote() {
      EarSelected? || EarUnselected? || EarAddInSelected? || EarAddInUnselected?
      || VoiceSelected? || VoiceUnselected?
    }
  }
}
