/** The edits of a band that the presenters request
    (session/src/band.rs:35-49). */
module BandOperations {
  /** An edit handed to the band through `modify_band`; ids and indices
      are naturals, the `f32` values reals. */
  datatype Operation =
    | AddTalker(id: nat, model: string)
    | SupTalker(id: nat)
    | SetTalkerData(id: nat, data: string)
    | SetEarHumVoice(id: nat, ear: nat, setIdx: nat, hum: nat, voiceTalker: nat, voicePort: nat)
    | SetEarHumValue(id: nat, ear: nat, setIdx: nat, hum: nat, value: real)
    | SetEarTalkVoice(id: nat, ear: nat, setIdx: nat, hum: nat, talk: nat, voiceTalker: nat, voicePort: nat)
    | SetEarTalkValue(id: nat, ear: nat, setIdx: nat, hum: nat, talk: nat, value: real)
    | AddValueToEarHum(id: nat, ear: nat, setIdx: nat, hum: nat, value: real)
    | AddVoiceToEarHum(id: nat, ear: nat, setIdx: nat, hum: nat, voiceTalker: nat, voicePort: nat)
    | SupEarTalk(id: nat, ear: nat, setIdx: nat, hum: nat, talk: nat)
    | AddSetValueToEar(id: nat, ear: nat, hum: nat, value: real)
    | AddSetVoiceToEar(id: nat, ear: nat, hum: nat, voiceTalker: nat, voicePort: nat)
    | SupEarSet(id: nat, ear: nat, setIdx: nat)
}
