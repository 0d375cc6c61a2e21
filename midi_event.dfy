/** The MIDI messages of the LV2 bindings (lv2/src/midi/event.rs): a
    channel, and the three messages the bindings know, as three raw bytes.
    `|` of a type with a channel is `+`: the type's low nibble is zero and
    the channel is below 16. */
module MidiEvents {
  import opened Wrappers
  import opened Numeric
  import opened Lv2Midi

  /** `Channel1` to `Channel16` as their `repr(u8)` values 0 to 15. */
  type Channel = c: int | 0 <= c < 16

  /** `Channel::from_raw`: the low nibble of the byte. */
  function ChannelFromRaw(raw: Byte): (c: Channel)
    ensures c == raw % 16
    ensures raw < 16 ==> c == raw
  {
    raw % 16
  }

  /** `Channel::into_raw`. */
  function ChannelIntoRaw(c: Channel): (r: Byte)
    ensures ChannelFromRaw(r) == c
  {
    c
  }

  datatype MidiMessage =
    | NoteOff(channel: Channel, note: Byte, velocity: Byte)
    | NoteOn(channel: Channel, note: Byte, velocity: Byte)
    | ProgramChange(channel: Channel, program: Byte)
    | NonExhaustive

  /** `channel`: every message but the hidden one has a channel. */
  function ChannelOf(m: MidiMessage): (r: Option<Channel>)
    ensures r.Some? <==> !m.NonExhaustive?
    ensures r.Some? ==> r.value == m.channel
  {
    if m.NonExhaustive? then None else Some(m.channel)
  }

  /** `raw_type`: the LV2 message type of the variant. */
  function RawType(m: MidiMessage): (r: Byte)
    ensures m.NoteOff? <==> r == MSG_NOTE_OFF
    ensures m.NoteOn? <==> r == MSG_NOTE_ON
    ensures m.ProgramChange? <==> r == MSG_PGM_CHANGE
    ensures m.NonExhaustive? <==> r == MSG_INVALID
  {
    match m
    case NoteOff(_, _, _) => MSG_NOTE_OFF
    case NoteOn(_, _, _) => MSG_NOTE_ON
    case ProgramChange(_, _) => MSG_PGM_CHANGE
    case NonExhaustive => MSG_INVALID
  }

  /** `from_raw`: the message of a status byte and two data bytes; a type
      other than the three known ones gives the hidden message. */
  function FromRaw(raw: (Byte, Byte, Byte)): (m: MidiMessage)
    ensures m.NonExhaustive? <==> MessageType(raw.0) !in {MSG_NOTE_OFF, MSG_NOTE_ON, MSG_PGM_CHANGE}
    ensures !m.NonExhaustive? ==> m.channel == raw.0 % 16 && RawType(m) == MessageType(raw.0)
  {
    var t := MessageType(raw.0);
    if t == MSG_NOTE_OFF then NoteOff(ChannelFromRaw(raw.0), raw.1, raw.2)
    else if t == MSG_NOTE_ON then NoteOn(ChannelFromRaw(raw.0), raw.1, raw.2)
    else if t == MSG_PGM_CHANGE then ProgramChange(ChannelFromRaw(raw.0), raw.1)
    else NonExhaustive
  }

  /** `to_raw`: type and channel in the first byte, then the note or the
      program, then the velocity or 0; the hidden message is three zeros. */
  function ToRaw(m: MidiMessage): (raw: (Byte, Byte, Byte))
    ensures !m.NonExhaustive? ==> raw.0 == RawType(m) + m.channel && IsVoiceMessage(raw.0)
    ensures m.NoteOff? || m.NoteOn? ==> raw.1 == m.note && raw.2 == m.velocity
    ensures m.ProgramChange? ==> raw.1 == m.program && raw.2 == 0
    ensures m.NonExhaustive? ==> raw == (0, 0, 0)
  {
    match m
    case NoteOff(c, n, v) => (MSG_NOTE_OFF + ChannelIntoRaw(c), n, v)
    case NoteOn(c, n, v) => (MSG_NOTE_ON + ChannelIntoRaw(c), n, v)
    case ProgramChange(c, p) => (MSG_PGM_CHANGE + ChannelIntoRaw(c), p, 0)
    case NonExhaustive => (0, 0, 0)
  }

  /** Every message reads back from its raw bytes. */
  lemma {:induction false} FromRawToRaw(m: MidiMessage)
    ensures FromRaw(ToRaw(m)) == m
  {
    if !m.NonExhaustive? {
      var b := ToRaw(m).0;
      assert MessageType(b) == RawType(m);
    }
  }

  /** Raw bytes of a known message come back from the message, but for the
      third byte of a program change, which is not kept. */
  lemma {:induction false} ToRawFromRaw(raw: (Byte, Byte, Byte))
    requires MessageType(raw.0) in {MSG_NOTE_OFF, MSG_NOTE_ON, MSG_PGM_CHANGE}
    ensures ToRaw(FromRaw(raw)).0 == raw.0 && ToRaw(FromRaw(raw)).1 == raw.1
    ensures ToRaw(FromRaw(raw)).2 == if FromRaw(raw).ProgramChange? then 0 else raw.2
  {
    VoiceTypeAndChannel(raw.0);
  }

  /** The first bytes of the two events of the MIDI sequence test: note on
      and note off on the first channel. */
  lemma {:induction false} FirstChannelStatusBytes()
    ensures ToRaw(NoteOn(0, 42, 69)) == (144, 42, 69)
    ensures ToRaw(NoteOff(0, 42, 69)) == (128, 42, 69)
  {
  }
}
