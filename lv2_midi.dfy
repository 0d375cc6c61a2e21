/** MIDI status-byte classification (lv2/lv2-sys/src/midi.rs), after the
    status-byte table of the MIDI 1.0 Detailed Specification ("Summary of
    MIDI Messages") and the message types of the LV2 MIDI extension.
    `b & 0xF0` is written `b / 16 * 16`. */
module Lv2Midi {
  import opened Numeric

  const MSG_INVALID: nat := 0
  const MSG_NOTE_OFF: nat := 0x80
  const MSG_NOTE_ON: nat := 0x90
  const MSG_NOTE_PRESSURE: nat := 0xA0
  const MSG_CONTROLLER: nat := 0xB0
  const MSG_PGM_CHANGE: nat := 0xC0
  const MSG_CHANNEL_PRESSURE: nat := 0xD0
  const MSG_BENDER: nat := 0xE0

  /** `b & 0xF0`. */
  function HighNibble(b: Byte): (r: Byte)
    ensures r % 16 == 0 && r <= b < r + 16
  {
    b / 16 * 16
  }

  /** `lv2_midi_is_voice_message`: a channel message, status 0x80 to 0xEF,
      that is a byte whose high nibble is one of the seven channel message
      types. */
  function IsVoiceMessage(b: Byte): (r: bool)
    ensures r <==> HighNibble(b) in {MSG_NOTE_OFF, MSG_NOTE_ON, MSG_NOTE_PRESSURE, MSG_CONTROLLER,
                                     MSG_PGM_CHANGE, MSG_CHANNEL_PRESSURE, MSG_BENDER}
  {
    0x80 <= b < 0xF0
  }

  /** `lv2_midi_is_system_message`: a status byte 0xF0 to 0xFF other than
      the undefined F4, F5, F9, FD and the end of exclusive F7. */
  function IsSystemMessage(b: Byte): (r: bool)
    ensures r <==> b in {0xF0, 0xF1, 0xF2, 0xF3, 0xF6, 0xF8, 0xFA, 0xFB, 0xFC, 0xFE, 0xFF}
  {
    if b in {0xF4, 0xF5, 0xF7, 0xF9, 0xFD} then false else HighNibble(b) == 0xF0
  }

  /** No byte is both a voice and a system message, and data bytes are
      neither. */
  lemma {:induction false} VoiceAndSystemDisjoint(b: Byte)
    ensures !(IsVoiceMessage(b) && IsSystemMessage(b))
    ensures b < 0x80 ==> !IsVoiceMessage(b) && !IsSystemMessage(b)
  {
    if IsSystemMessage(b) {
      assert HighNibble(b) == 0xF0;
    }
  }

  /** `lv2_midi_message_type`: the high nibble of a voice message, the
      whole byte of a system message, and `MSG_INVALID` otherwise. */
  function MessageType(b: Byte): (r: nat)
    ensures IsVoiceMessage(b) ==> r in {MSG_NOTE_OFF, MSG_NOTE_ON, MSG_NOTE_PRESSURE, MSG_CONTROLLER,
                                        MSG_PGM_CHANGE, MSG_CHANNEL_PRESSURE, MSG_BENDER}
    ensures IsVoiceMessage(b) ==> r <= b < r + 16
    ensures IsSystemMessage(b) ==> r == b
    ensures r == MSG_INVALID <==> !IsVoiceMessage(b) && !IsSystemMessage(b)
  {
    if IsVoiceMessage(b) then HighNibble(b)
    else if IsSystemMessage(b) then b
    else MSG_INVALID
  }

  /** A status byte of a channel message is its type plus its channel. */
  lemma {:induction false} VoiceTypeAndChannel(b: Byte)
    requires IsVoiceMessage(b)
    ensures b == MessageType(b) + b % 16
  {
  }
}
