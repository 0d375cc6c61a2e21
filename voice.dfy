/** A talker's output port (talker/src/voice.rs): a tag, a port type, and
    the tick and length of the last chunk it produced, which the listeners
    read as a cache. The sample buffer itself (the `Horn`) is not modelled;
    only its port type is. */
module Voices {
  import opened Wrappers

  /** The four kinds of port (the `PortType` enum of the talker crate). */
  datatype PortType = Audio | Control | Cv | Atom

  const DEF_OUTPUT_TAG: string := "Out"

  class Voice {
    const tag: string
    const portType: PortType
    var tick: int
    var len: nat
    /** The ear and set of its talker this voice is associated with; read
        and renumbered by talker/src/talker.rs (`get_associated_ear_set`,
        `set_associated_ear_set`), which voice.rs does not define. */
    var assocEar: nat
    var assocSet: nat

    /** `Voice::new`: the tag defaults to "Out" and the tick starts at -1,
        so that no tick of a real chunk (all are >= 0) reads as cached. */
    constructor (tag: Option<string>, len: nat, portType: PortType)
      ensures this.tag == (if tag.Some? then tag.value else DEF_OUTPUT_TAG)
      ensures this.portType == portType && this.tick == -1 && this.len == len
      ensures assocEar == 0 && assocSet == 0
    {
      this.tag := if tag.Some? then tag.value else DEF_OUTPUT_TAG;
      this.portType := portType;
      this.tick := -1;
      this.len := len;
      assocEar := 0;
      assocSet := 0;
    }

    method SetTick(tick: int)
      modifies this
      ensures this.tick == tick && len == old(len)
      ensures assocEar == old(assocEar) && assocSet == old(assocSet)
    {
      this.tick := tick;
    }

    method SetLen(len: nat)
      modifies this
      ensures this.len == len && tick == old(tick)
      ensures assocEar == old(assocEar) && assocSet == old(assocSet)
    {
      this.len := len;
    }

    /** Sets both tick and length and nothing else. */
    method SetTickLen(tick: int, len: nat)
      modifies this
      ensures this.tick == tick && this.len == len
      ensures assocEar == old(assocEar) && assocSet == old(assocSet)
    {
      this.tick := tick;
      this.len := len;
    }

    /** `can_have_a_value`: audio, control and cv voices carry values;
        atom voices carry events. */
    function CanHaveAValue(): (r: bool)
      ensures r <==> portType in {Audio, Control, Cv}
    {
      portType != Atom
    }

    method SetAssociatedEarSet(earIdx: nat, setIdx: nat)
      modifies this
      ensures assocEar == earIdx && assocSet == setIdx
      ensures tick == old(tick) && len == old(len)
    {
      assocEar := earIdx;
      assocSet := setIdx;
    }
  }

  /** `voice::audio`: a chunk-sized audio voice. */
  method AudioVoice(tag: Option<string>, chunkSize: nat) returns (v: Voice)
    ensures fresh(v) && v.portType == Audio && v.len == chunkSize && v.tick == -1
    ensures v.tag == (if tag.Some? then tag.value else DEF_OUTPUT_TAG)
  {
    v := new Voice(tag, chunkSize, Audio);
  }

  /** `voice::control`: a control voice holds a single value. */
  method ControlVoice(tag: Option<string>) returns (v: Voice)
    ensures fresh(v) && v.portType == Control && v.len == 1 && v.tick == -1
    ensures v.tag == (if tag.Some? then tag.value else DEF_OUTPUT_TAG)
  {
    v := new Voice(tag, 1, Control);
  }

  /** `voice::cv`: a chunk-sized control-voltage voice. */
  method CvVoice(tag: Option<string>, chunkSize: nat) returns (v: Voice)
    ensures fresh(v) && v.portType == Cv && v.len == chunkSize && v.tick == -1
    ensures v.tag == (if tag.Some? then tag.value else DEF_OUTPUT_TAG)
  {
    v := new Voice(tag, chunkSize, Cv);
  }

  /** `voice::atom`: a chunk-sized event voice. */
  method AtomVoice(tag: Option<string>, chunkSize: nat) returns (v: Voice)
    ensures fresh(v) && v.portType == Atom && v.len == chunkSize && v.tick == -1
    ensures v.tag == (if tag.Some? then tag.value else DEF_OUTPUT_TAG)
    ensures !v.CanHaveAValue()
  {
    v := new Voice(tag, chunkSize, Atom);
  }
}
