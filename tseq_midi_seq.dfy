/** A tseq MIDI output (session/src/talkers/tseq/midi_seq.rs): the set-up
    events each channel's attributes give, the note events of its sequence,
    sorted by tick, and the events one audio cycle sends. Status bytes carry
    the channel in their low nibble; as every status constant here has a zero
    low nibble and channels are below 16, the source's `|` is `+`. The
    conversions from frequency to note number and from velocity to byte are
    floating point and are parameters, as is making a sequence's events. */
module TseqMidiSeq {
  import opened Wrappers
  import opened Numeric
  import opened Strs
  import opened TseqSequence

  const NOTE_OFF: Byte := 0x80
  const NOTE_ON: Byte := 0x90
  const CONTROLLER: Byte := 0xB0
  const CTRL_BANK_SELECT_MSB: Byte := 0x00
  const CTRL_BANK_SELECT_LSB: Byte := 0x20
  const CTRL_VOLUME: Byte := 0x07
  const CTRL_BALANCE: Byte := 0x08
  const CTRL_PAN: Byte := 0x0A
  const PROGRAM_CHANGE: Byte := 0xC0
  const MAX_CHANNELS: nat := 16

  datatype Attribute = Attribute(name: string, value: string)
  datatype MidiChannel = MidiChannel(seqId: string, program: Byte, attributes: seq<Attribute>)
  datatype MidiSequence = MidiSequence(id: string, channels: seq<MidiChannel>)

  datatype MidiEvent = MidiEvent(tick: int, data: seq<Byte>)

  /** `freq_to_midi` and the `as u8` of a velocity times 127. */
  datatype NoteConversions = NoteConversions(noteOf: real -> Byte, velocityOf: real -> Byte)

  /** A status byte for a channel: the message type in the high nibble, the
      channel in the low one. */
  function WithChannel(status: Byte, channel: nat): (r: Byte)
    requires status % 16 == 0 && channel < MAX_CHANNELS
    ensures r / 16 == status / 16 && r % 16 == channel
  {
    status + channel
  }

  // ---------------------------------------------------------------------
  // Channel attributes
  // ---------------------------------------------------------------------

  predicate IsNamedController(name: string)
  {
    name == "MSB" || name == "LSB" || StartsWith(name, "vol") || name == "bal" || StartsWith(name, "pan")
  }

  /** The controller an attribute label names: the bank selects, volume,
      balance and pan by name (`vol…` and `pan…` by prefix), any other
      controller by its number. */
  function ControllerType(name: string): (r: Result<Byte>)
    ensures name == "MSB" ==> r == Ok(CTRL_BANK_SELECT_MSB)
    ensures name == "LSB" ==> r == Ok(CTRL_BANK_SELECT_LSB)
    ensures StartsWith(name, "vol") ==> r == Ok(CTRL_VOLUME)
    ensures name == "bal" ==> r == Ok(CTRL_BALANCE)
    ensures StartsWith(name, "pan") ==> r == Ok(CTRL_PAN)
    ensures !IsNamedController(name) && ParseU8(name).Some? ==> r == Ok(ParseU8(name).value)
    ensures r.Err? <==> !IsNamedController(name) && ParseU8(name).None?
    ensures r.Err? ==> r.msg == "Midi controller type " + name + " unknown!"
  {
    if name == "MSB" then Ok(CTRL_BANK_SELECT_MSB)
    else if name == "LSB" then Ok(CTRL_BANK_SELECT_LSB)
    else if StartsWith(name, "vol") then Ok(CTRL_VOLUME)
    else if name == "bal" then Ok(CTRL_BALANCE)
    else if StartsWith(name, "pan") then Ok(CTRL_PAN)
    else match ParseU8(name)
      case Some(ct) => Ok(ct)
      case None => Err("Midi controller type " + name + " unknown!")
  }

  /** The value of an attribute: a `u8`. */
  function ControllerValue(value: string): (r: Result<Byte>)
    ensures r.Ok? <==> ParseU8(value).Some?
    ensures r.Ok? ==> r.value == ParseU8(value).value
    ensures r.Err? ==> r.msg == "Midi controller value " + value + " invalid!"
  {
    match ParseU8(value)
    case Some(cv) => Ok(cv)
    case None => Err("Midi controller value " + value + " invalid!")
  }

  /** What a channel's attributes set up: its controller events, and the two
      bank bytes. */
  datatype Config = Config(controllers: seq<MidiEvent>, msb: Byte, lsb: Byte)

  predicate AttributeParses(a: Attribute)
  {
    ControllerType(a.name).Ok? && ControllerValue(a.value).Ok?
  }

  function ApplyAttribute(c: Config, a: Attribute, channel: nat): (r: Result<Config>)
    requires channel < MAX_CHANNELS
    ensures r.Ok? <==> AttributeParses(a)
  {
    match ControllerType(a.name)
    case Err(msg) => Err(msg)
    case Ok(ct) =>
      match ControllerValue(a.value)
      case Err(msg) => Err(msg)
      case Ok(cv) =>
        if ct == CTRL_BANK_SELECT_MSB then Ok(c.(msb := cv))
        else if ct == CTRL_BANK_SELECT_LSB then Ok(c.(lsb := cv))
        else Ok(c.(controllers := c.controllers + [MidiEvent(0, [WithChannel(CONTROLLER, channel), ct, cv])]))
  }

  /** The first `n` attributes of a channel, in order; the first bad label or
      value stops it. */
  function ConfigAfter(attributes: seq<Attribute>, n: nat, channel: nat): Result<Config>
    requires n <= |attributes| && channel < MAX_CHANNELS
  {
    if n == 0 then Ok(Config([], 0, 0))
    else match ConfigAfter(attributes, n - 1, channel)
      case Err(msg) => Err(msg)
      case Ok(c) => ApplyAttribute(c, attributes[n - 1], channel)
  }

  /** A channel's attributes set it up exactly when every label and every
      value among them parses. */
  lemma {:induction false} ConfigOkIff(attributes: seq<Attribute>, n: nat, channel: nat)
    requires n <= |attributes| && channel < MAX_CHANNELS
    ensures ConfigAfter(attributes, n, channel).Ok? <==> forall k :: 0 <= k < n ==> AttributeParses(attributes[k])
  {
    ConfigOkParses(attributes, n, channel);
    if forall k :: 0 <= k < n ==> AttributeParses(attributes[k]) {
      ParsesConfigOk(attributes, n, channel);
    }
  }

  lemma {:induction false} ConfigOkParses(attributes: seq<Attribute>, n: nat, channel: nat)
    requires n <= |attributes| && channel < MAX_CHANNELS
    ensures ConfigAfter(attributes, n, channel).Ok? ==> forall k :: 0 <= k < n ==> AttributeParses(attributes[k])
  {
    if n > 0 && ConfigAfter(attributes, n, channel).Ok? {
      ConfigStep(attributes, n, channel);
      ConfigOkParses(attributes, n - 1, channel);
      forall k | 0 <= k < n ensures AttributeParses(attributes[k]) {
        if k < n - 1 {
        }
      }
    }
  }

  lemma {:induction false} ParsesConfigOk(attributes: seq<Attribute>, n: nat, channel: nat)
    requires n <= |attributes| && channel < MAX_CHANNELS
    requires forall k :: 0 <= k < n ==> AttributeParses(attributes[k])
    ensures ConfigAfter(attributes, n, channel).Ok?
  {
    if n > 0 {
      ConfigStep(attributes, n, channel);
      ParsesConfigOk(attributes, n - 1, channel);
    }
  }

  lemma ConfigStep(attributes: seq<Attribute>, n: nat, channel: nat)
    requires 0 < n <= |attributes| && channel < MAX_CHANNELS
    ensures ConfigAfter(attributes, n, channel).Ok? <==>
      ConfigAfter(attributes, n - 1, channel).Ok? && AttributeParses(attributes[n - 1])
  {
    var prev := ConfigAfter(attributes, n - 1, channel);
    if prev.Ok? {
      assert ConfigAfter(attributes, n, channel) == ApplyAttribute(prev.value, attributes[n - 1], channel);
    }
  }

  /** Every controller event an attribute adds is a controller message on the
      channel, at tick 0, for a controller other than the two bank selects. */
  predicate ChannelController(e: MidiEvent, channel: nat)
  {
    e.tick == 0 && |e.data| == 3 && e.data[0] / 16 == CONTROLLER / 16 && e.data[0] % 16 == channel &&
    e.data[1] != CTRL_BANK_SELECT_MSB && e.data[1] != CTRL_BANK_SELECT_LSB
  }

  lemma {:induction false} ConfigControllers(attributes: seq<Attribute>, n: nat, channel: nat)
    requires n <= |attributes| && channel < MAX_CHANNELS
    ensures ConfigAfter(attributes, n, channel).Ok? ==>
      forall e :: e in ConfigAfter(attributes, n, channel).value.controllers ==> ChannelController(e, channel)
  {
    if n > 0 {
      ConfigControllers(attributes, n - 1, channel);
    }
  }

  /** Once an attribute fails, later ones change nothing. */
  lemma {:induction false} ConfigErrPersists(attributes: seq<Attribute>, n: nat, n2: nat, channel: nat)
    requires n <= n2 <= |attributes| && channel < MAX_CHANNELS
    requires ConfigAfter(attributes, n, channel).Err?
    ensures ConfigAfter(attributes, n2, channel) == ConfigAfter(attributes, n, channel)
    decreases n2 - n
  {
    if n2 > n {
      ConfigErrPersists(attributes, n, n2 - 1, channel);
    }
  }

  /** The attribute loop of `MidiSeq::new` for one channel. */
  method Configure(attributes: seq<Attribute>, channel: nat) returns (r: Result<Config>)
    requires channel < MAX_CHANNELS
    ensures r == ConfigAfter(attributes, |attributes|, channel)
  {
    var controllers: seq<MidiEvent> := [];
    var msb: Byte, lsb: Byte := 0, 0;
    for i := 0 to |attributes|
      invariant ConfigAfter(attributes, i, channel) == Ok(Config(controllers, msb, lsb))
    {
      var attribute := attributes[i];
      var ctrlType: Byte;
      if attribute.name == "MSB" {
        ctrlType := CTRL_BANK_SELECT_MSB;
      } else if attribute.name == "LSB" {
        ctrlType := CTRL_BANK_SELECT_LSB;
      } else if StartsWith(attribute.name, "vol") {
        ctrlType := CTRL_VOLUME;
      } else if attribute.name == "bal" {
        ctrlType := CTRL_BALANCE;
      } else if StartsWith(attribute.name, "pan") {
        ctrlType := CTRL_PAN;
      } else {
        var ct := ParseU8(attribute.name);
        if ct.None? {
          ConfigErrPersists(attributes, i + 1, |attributes|, channel);
          return Err("Midi controller type " + attribute.name + " unknown!");
        }
        ctrlType := ct.value;
      }
      var cv := ParseU8(attribute.value);
      if cv.None? {
        ConfigErrPersists(attributes, i + 1, |attributes|, channel);
        return Err("Midi controller value " + attribute.value + " invalid!");
      }
      var ctrlValue: Byte := cv.value;
      if ctrlType == CTRL_BANK_SELECT_MSB {
        msb := ctrlValue;
      } else if ctrlType == CTRL_BANK_SELECT_LSB {
        lsb := ctrlValue;
      } else {
        controllers := controllers + [MidiEvent(0, [WithChannel(CONTROLLER, channel), ctrlType, ctrlValue])];
      }
    }
    return Ok(Config(controllers, msb, lsb));
  }

  // ---------------------------------------------------------------------
  // Note events
  // ---------------------------------------------------------------------

  /** A sequence event as MIDI: a note-on at its start and a note-off at its
      end, both for the note of its start frequency. */
  function NotePair(e: SequenceEvent, channel: nat, conv: NoteConversions): (r: seq<MidiEvent>)
    requires channel < MAX_CHANNELS
    ensures |r| == 2 && r[0].tick == e.startTick && r[1].tick == e.endTick
    ensures r[0].data == [WithChannel(NOTE_ON, channel), conv.noteOf(e.startFrequency), conv.velocityOf(e.startVelocity)]
    ensures r[1].data == [WithChannel(NOTE_OFF, channel), conv.noteOf(e.startFrequency), conv.velocityOf(e.endVelocity)]
  {
    var note := conv.noteOf(e.startFrequency);
    [MidiEvent(e.startTick, [WithChannel(NOTE_ON, channel), note, conv.velocityOf(e.startVelocity)]),
     MidiEvent(e.endTick, [WithChannel(NOTE_OFF, channel), note, conv.velocityOf(e.endVelocity)])]
  }

  /** The note events of the first `n` events of one harmonic. */
  function ListNotes(l: seq<SequenceEvent>, n: nat, channel: nat, conv: NoteConversions): seq<MidiEvent>
    requires n <= |l| && channel < MAX_CHANNELS
  {
    if n == 0 then [] else ListNotes(l, n - 1, channel, conv) + NotePair(l[n - 1], channel, conv)
  }

  /** The note events of the first `n` harmonics, harmonic after harmonic. */
  function HarmonicsNotes(hs: seq<seq<SequenceEvent>>, n: nat, channel: nat, conv: NoteConversions): seq<MidiEvent>
    requires n <= |hs| && channel < MAX_CHANNELS
  {
    if n == 0 then [] else HarmonicsNotes(hs, n - 1, channel, conv) + ListNotes(hs[n - 1], |hs[n - 1]|, channel, conv)
  }

  /** A note message on the channel. */
  predicate ChannelNote(e: MidiEvent, channel: nat)
  {
    |e.data| == 3 && (e.data[0] / 16 == NOTE_ON / 16 || e.data[0] / 16 == NOTE_OFF / 16) && e.data[0] % 16 == channel
  }

  /** Two note events per sequence event, all note-ons and note-offs on the
      channel. */
  lemma {:induction false} ListNotesShape(l: seq<SequenceEvent>, n: nat, channel: nat, conv: NoteConversions)
    requires n <= |l| && channel < MAX_CHANNELS
    ensures |ListNotes(l, n, channel, conv)| == 2 * n
    ensures forall e :: e in ListNotes(l, n, channel, conv) ==> ChannelNote(e, channel)
  {
    if n > 0 {
      ListNotesShape(l, n - 1, channel, conv);
    }
  }

  lemma {:induction false} HarmonicsNotesOnChannel(hs: seq<seq<SequenceEvent>>, n: nat, channel: nat, conv: NoteConversions)
    requires n <= |hs| && channel < MAX_CHANNELS
    ensures forall e :: e in HarmonicsNotes(hs, n, channel, conv) ==> ChannelNote(e, channel)
  {
    if n > 0 {
      HarmonicsNotesOnChannel(hs, n - 1, channel, conv);
      ListNotesShape(hs[n - 1], |hs[n - 1]|, channel, conv);
    }
  }

  /** The note loops of `MidiSeq::new` for one channel, appending to `acc`. */
  method AppendNotes(acc: seq<MidiEvent>, hs: seq<seq<SequenceEvent>>, channel: nat, conv: NoteConversions)
    returns (events: seq<MidiEvent>)
    requires channel < MAX_CHANNELS
    ensures events == acc + HarmonicsNotes(hs, |hs|, channel, conv)
  {
    events := acc;
    for i := 0 to |hs|
      invariant events == acc + HarmonicsNotes(hs, i, channel, conv)
    {
      var l := hs[i];
      ghost var before := events;
      for j := 0 to |l|
        invariant events == before + ListNotes(l, j, channel, conv)
      {
        var ev := l[j];
        var note := conv.noteOf(ev.startFrequency);
        var startVelocity := conv.velocityOf(ev.startVelocity);
        events := events + [MidiEvent(ev.startTick, [WithChannel(NOTE_ON, channel), note, startVelocity])];
        var endVelocity := conv.velocityOf(ev.endVelocity);
        events := events + [MidiEvent(ev.endTick, [WithChannel(NOTE_OFF, channel), note, endVelocity])];
      }
    }
  }

  // ---------------------------------------------------------------------
  // Sorting by tick
  // ---------------------------------------------------------------------

  predicate SortedByTick(s: seq<MidiEvent>)
  {
    forall i, j :: 0 <= i < j < |s| ==> s[i].tick <= s[j].tick
  }

  /** `e` inserted into a sorted list before the first later event. */
  function InsertByTick(e: MidiEvent, s: seq<MidiEvent>): (r: seq<MidiEvent>)
    requires SortedByTick(s)
    ensures SortedByTick(r)
    ensures multiset(r) == multiset(s) + multiset{e}
    ensures forall x :: x in r ==> x == e || x in s
  {
    if |s| == 0 then [e]
    else if e.tick <= s[0].tick then [e] + s
    else
      var rest := InsertByTick(e, s[1..]);
      InsertHead(s[0], rest, e, s);
      assert s == [s[0]] + s[1..];
      [s[0]] + rest
  }

  /** The head of a sorted list, before an event after it, stays first when
      that event is inserted into the list's tail. */
  lemma InsertHead(head: MidiEvent, rest: seq<MidiEvent>, e: MidiEvent, s: seq<MidiEvent>)
    requires SortedByTick(s) && |s| > 0 && head == s[0] && head.tick < e.tick
    requires SortedByTick(rest)
    requires forall x :: x in rest ==> x == e || x in s[1..]
    ensures SortedByTick([head] + rest)
  {
    forall k | 0 <= k < |rest|
      ensures head.tick <= rest[k].tick
    {
      assert rest[k] in rest;
    }
  }

  /** The `sort_unstable_by` of the note events on their tick: sorted, and
      the same events. */
  method SortByTick(s: seq<MidiEvent>) returns (r: seq<MidiEvent>)
    ensures SortedByTick(r)
    ensures multiset(r) == multiset(s)
  {
    r := [];
    for i := 0 to |s|
      invariant SortedByTick(r)
      invariant multiset(r) == multiset(s[..i])
    {
      r := InsertByTick(s[i], r);
      assert s[..i + 1] == s[..i] + [s[i]];
    }
    assert s[..|s|] == s;
  }

  // ---------------------------------------------------------------------
  // MidiSeq::new
  // ---------------------------------------------------------------------

  /** What the channels contribute: set-up controller events, program
      changes and (unsorted) note events. */
  datatype Acc = Acc(controllers: seq<MidiEvent>, programs: seq<MidiEvent>, notes: seq<MidiEvent>)

  /** The configuration each channel's attributes give, channel `k` being
      MIDI channel `k`. */
  function Configs(channels: seq<MidiChannel>): (r: seq<Result<Config>>)
    requires |channels| <= MAX_CHANNELS
    ensures |r| == |channels|
    ensures forall k :: 0 <= k < |channels| ==> r[k] == ConfigAfter(channels[k].attributes, |channels[k].attributes|, k)
  {
    seq(|channels|, k requires 0 <= k < |channels| => ConfigAfter(channels[k].attributes, |channels[k].attributes|, k))
  }

  /** One channel, `cfg` being what its attributes give: its sequence is
      fetched, its attributes read, its events made, in that order, the first
      failure being the result. Its controllers come first, then its two
      bank selects, then one program change. */
  function ChannelAcc<Q>(acc: Acc, ch: MidiChannel, number: nat, cfg: Result<Config>,
                         fetch: string -> Result<Q>, create: Q -> Result<seq<seq<SequenceEvent>>>,
                         conv: NoteConversions): (r: Result<Acc>)
    requires number < MAX_CHANNELS
    ensures r.Ok? ==> r.value.programs == acc.programs + [MidiEvent(0, [PROGRAM_CHANGE + number, ch.program])]
  {
    match fetch(ch.seqId)
    case Err(msg) => Err(msg)
    case Ok(q) =>
      match cfg
      case Err(msg) => Err(msg)
      case Ok(c) =>
        match create(q)
        case Err(msg) => Err(msg)
        case Ok(hs) => Ok(Extend(acc, ch, number, c, hs, conv))
  }

  /** What a channel whose attributes and events could be made adds to the
      lists. */
  function Extend(acc: Acc, ch: MidiChannel, number: nat, c: Config, hs: seq<seq<SequenceEvent>>,
                  conv: NoteConversions): (r: Acc)
    requires number < MAX_CHANNELS
    ensures r.programs == acc.programs + [MidiEvent(0, [PROGRAM_CHANGE + number, ch.program])]
  {
    Acc(acc.controllers + c.controllers +
          [MidiEvent(0, [WithChannel(CONTROLLER, number), CTRL_BANK_SELECT_MSB, c.msb]),
           MidiEvent(0, [WithChannel(CONTROLLER, number), CTRL_BANK_SELECT_LSB, c.lsb])],
        acc.programs + [MidiEvent(0, [WithChannel(PROGRAM_CHANGE, number), ch.program])],
        acc.notes + HarmonicsNotes(hs, |hs|, number, conv))
  }

  /** The first `n` channels, channel `k` being MIDI channel `k` with the
      configuration `cfgs[k]`. */
  function ChannelsAfter<Q>(channels: seq<MidiChannel>, cfgs: seq<Result<Config>>, n: nat,
                            fetch: string -> Result<Q>, create: Q -> Result<seq<seq<SequenceEvent>>>,
                            conv: NoteConversions): Result<Acc>
    requires n <= |channels| == |cfgs| <= MAX_CHANNELS
  {
    if n == 0 then Ok(Acc([], [], []))
    else match ChannelsAfter(channels, cfgs, n - 1, fetch, create, conv)
      case Err(msg) => Err(msg)
      case Ok(acc) => ChannelAcc(acc, channels[n - 1], n - 1, cfgs[n - 1], fetch, create, conv)
  }

  lemma {:induction false} ChannelsErrPersists<Q>(channels: seq<MidiChannel>, cfgs: seq<Result<Config>>,
                                                  n: nat, n2: nat, fetch: string -> Result<Q>,
                                                  create: Q -> Result<seq<seq<SequenceEvent>>>,
                                                  conv: NoteConversions)
    requires n <= n2 <= |channels| == |cfgs| <= MAX_CHANNELS
    requires ChannelsAfter(channels, cfgs, n, fetch, create, conv).Err?
    ensures ChannelsAfter(channels, cfgs, n2, fetch, create, conv) == ChannelsAfter(channels, cfgs, n, fetch, create, conv)
    decreases n2 - n
  {
    if n2 > n {
      ChannelsErrPersists(channels, cfgs, n, n2 - 1, fetch, create, conv);
    }
  }

  /** A failing channel is the result of the whole loop; a passing one the
      lists after it. */
  lemma ChannelsOutcome<Q>(channels: seq<MidiChannel>, cfgs: seq<Result<Config>>, n: nat, acc: Acc,
                           next: Result<Acc>, fetch: string -> Result<Q>,
                           create: Q -> Result<seq<seq<SequenceEvent>>>, conv: NoteConversions)
    requires n < |channels| == |cfgs| <= MAX_CHANNELS
    requires ChannelsAfter(channels, cfgs, n, fetch, create, conv) == Ok(acc)
    requires next == ChannelAcc(acc, channels[n], n, cfgs[n], fetch, create, conv)
    ensures next.Err? ==> ChannelsAfter(channels, cfgs, |channels|, fetch, create, conv) == next
    ensures next.Ok? ==> ChannelsAfter(channels, cfgs, n + 1, fetch, create, conv) == next
  {
    if next.Err? {
      ChannelsErrPersists(channels, cfgs, n + 1, |channels|, fetch, create, conv);
    }
  }

  /** Each channel gives one program change, on its own channel, in channel
      order. */
  lemma {:induction false} ChannelsPrograms<Q>(channels: seq<MidiChannel>, cfgs: seq<Result<Config>>, n: nat,
                                               fetch: string -> Result<Q>,
                                               create: Q -> Result<seq<seq<SequenceEvent>>>,
                                               conv: NoteConversions)
    requires n <= |channels| == |cfgs| <= MAX_CHANNELS
    ensures ChannelsAfter(channels, cfgs, n, fetch, create, conv).Ok? ==>
      var ps := ChannelsAfter(channels, cfgs, n, fetch, create, conv).value.programs;
      |ps| == n && forall k :: 0 <= k < n ==> ps[k] == MidiEvent(0, [PROGRAM_CHANGE + k, channels[k].program])
  {
    if n > 0 {
      ChannelsPrograms(channels, cfgs, n - 1, fetch, create, conv);
    }
  }

  datatype MidiSeq = MidiSeq(controllerEvents: seq<MidiEvent>, programChangeEvents: seq<MidiEvent>,
                             events: seq<MidiEvent>, midiUrid: nat)

  /** `MidiSeq::new`: at most 16 channels; the channels in order; the note
      events sorted by tick. */
  method NewMidiSeq<Q>(sequence: MidiSequence, fetch: string -> Result<Q>,
                       create: Q -> Result<seq<seq<SequenceEvent>>>, conv: NoteConversions, midiUrid: nat)
    returns (r: Result<MidiSeq>)
    ensures |sequence.channels| > MAX_CHANNELS ==>
      r == Err("Midi output " + sequence.id + " have " + FormatNat(|sequence.channels|) + " channels instead of 16 maximum!")
    ensures |sequence.channels| <= MAX_CHANNELS ==>
      var acc := ChannelsAfter(sequence.channels, Configs(sequence.channels), |sequence.channels|, fetch, create, conv);
      (r.Err? <==> acc.Err?) &&
      (acc.Err? ==> r == Err(acc.msg)) &&
      (acc.Ok? ==> r.Ok? && r.value.controllerEvents == acc.value.controllers &&
                   r.value.programChangeEvents == acc.value.programs &&
                   SortedByTick(r.value.events) && multiset(r.value.events) == multiset(acc.value.notes) &&
                   r.value.midiUrid == midiUrid)
  {
    var channels := sequence.channels;
    if |channels| > MAX_CHANNELS {
      return Err("Midi output " + sequence.id + " have " + FormatNat(|channels|) + " channels instead of 16 maximum!");
    }
    var acc := AddChannels(channels, fetch, create, conv);
    if acc.Err? {
      return Err(acc.msg);
    }
    var events := SortByTick(acc.value.notes);
    return Ok(MidiSeq(acc.value.controllers, acc.value.programs, events, midiUrid));
  }

  /** The channel loop of `MidiSeq::new`. */
  method AddChannels<Q>(channels: seq<MidiChannel>, fetch: string -> Result<Q>,
                        create: Q -> Result<seq<seq<SequenceEvent>>>, conv: NoteConversions)
    returns (r: Result<Acc>)
    requires |channels| <= MAX_CHANNELS
    ensures r == ChannelsAfter(channels, Configs(channels), |channels|, fetch, create, conv)
  {
    ghost var cfgs := Configs(channels);
    r := Ok(Acc([], [], []));
    for number := 0 to |channels|
      invariant r.Ok? && ChannelsAfter(channels, cfgs, number, fetch, create, conv) == r
    {
      var next := AddChannel(r.value, channels[number], number, cfgs[number], fetch, create, conv);
      ChannelsOutcome(channels, cfgs, number, r.value, next, fetch, create, conv);
      r := next;
      if r.Err? {
        return;
      }
    }
  }

  /** The body of the channel loop of `MidiSeq::new`. */
  method AddChannel<Q>(acc: Acc, ch: MidiChannel, number: nat, ghost cfg: Result<Config>,
                       fetch: string -> Result<Q>, create: Q -> Result<seq<seq<SequenceEvent>>>,
                       conv: NoteConversions)
    returns (r: Result<Acc>)
    requires number < MAX_CHANNELS
    requires cfg == ConfigAfter(ch.attributes, |ch.attributes|, number)
    ensures r == ChannelAcc(acc, ch, number, cfg, fetch, create, conv)
  {
    var seqResult := fetch(ch.seqId);
    if seqResult.Err? {
      return Err(seqResult.msg);
    }
    var config := Configure(ch.attributes, number);
    if config.Err? {
      return Err(config.msg);
    }
    var c := config.value;
    var msbEvent := MidiEvent(0, [WithChannel(CONTROLLER, number), CTRL_BANK_SELECT_MSB, c.msb]);
    var lsbEvent := MidiEvent(0, [WithChannel(CONTROLLER, number), CTRL_BANK_SELECT_LSB, c.lsb]);
    var controllers := acc.controllers + c.controllers;
    controllers := controllers + [msbEvent];
    controllers := controllers + [lsbEvent];
    assert controllers == acc.controllers + c.controllers + [msbEvent, lsbEvent];
    var programs := acc.programs + [MidiEvent(0, [WithChannel(PROGRAM_CHANGE, number), ch.program])];
    var harmonics := create(seqResult.value);
    if harmonics.Err? {
      return Err(harmonics.msg);
    }
    var notes := AppendNotes(acc.notes, harmonics.value, number, conv);
    return Ok(Acc(controllers, programs, notes));
  }

  // ---------------------------------------------------------------------
  // make_midi_event
  // ---------------------------------------------------------------------

  /** The first index from `from` on whose event is at or after tick `t`, or
      the length of the list. */
  function FirstAtOrAfter(s: seq<MidiEvent>, t: int, from: nat): (r: nat)
    requires from <= |s|
    ensures from <= r <= |s|
    ensures forall k :: from <= k < r ==> s[k].tick < t
    ensures r < |s| ==> s[r].tick >= t
    decreases |s| - from
  {
    if from == |s| || s[from].tick >= t then from else FirstAtOrAfter(s, t, from + 1)
  }

  /** The index a cursor stops at is `FirstAtOrAfter` whenever every event it
      passed is before `t` and the one it stops at is not. */
  lemma {:induction false} FirstAtOrAfterUnique(s: seq<MidiEvent>, t: int, from: nat, idx: nat)
    requires from <= idx <= |s|
    requires forall k :: from <= k < idx ==> s[k].tick < t
    requires idx < |s| ==> s[idx].tick >= t
    ensures FirstAtOrAfter(s, t, from) == idx
    decreases idx - from
  {
    if from < idx {
      FirstAtOrAfterUnique(s, t, from + 1, idx);
    }
  }

  /** Events at an offset from the start of the cycle. */
  function AtOffsets(s: seq<MidiEvent>, tick: int): (r: seq<(int, seq<Byte>)>)
    ensures |r| == |s|
    ensures forall i :: 0 <= i < |s| ==> r[i] == (s[i].tick - tick, s[i].data)
  {
    if |s| == 0 then [] else AtOffsets(s[..|s| - 1], tick) + [(s[|s| - 1].tick - tick, s[|s| - 1].data)]
  }

  /** The set-up events at their own ticks: controllers, then program
      changes, in order. */
  function Prelude(m: MidiSeq): (r: seq<(int, seq<Byte>)>)
    ensures |r| == |m.controllerEvents| + |m.programChangeEvents|
    ensures forall i :: 0 <= i < |m.controllerEvents| ==>
      r[i] == (m.controllerEvents[i].tick, m.controllerEvents[i].data)
    ensures forall j :: 0 <= j < |m.programChangeEvents| ==>
      r[|m.controllerEvents| + j] == (m.programChangeEvents[j].tick, m.programChangeEvents[j].data)
  {
    AtOffsets(m.controllerEvents, 0) + AtOffsets(m.programChangeEvents, 0)
  }

  /** Every controller and program change the channels give is at tick 0. */
  lemma ChannelsAtZero<Q>(channels: seq<MidiChannel>, n: nat, fetch: string -> Result<Q>,
                          create: Q -> Result<seq<seq<SequenceEvent>>>, conv: NoteConversions)
    requires n <= |channels| <= MAX_CHANNELS
    ensures var acc := ChannelsAfter(channels, Configs(channels), n, fetch, create, conv);
      acc.Ok? ==> SetUpAtZero(acc.value)
  {
    var cfgs := Configs(channels);
    forall k | 0 <= k < |cfgs| && cfgs[k].Ok?
      ensures forall e :: e in cfgs[k].value.controllers ==> ChannelController(e, k)
    {
      ConfigControllers(channels[k].attributes, |channels[k].attributes|, k);
    }
    ChannelsWithAtZero(channels, cfgs, n, fetch, create, conv);
  }

  lemma {:induction false} ChannelsWithAtZero<Q>(channels: seq<MidiChannel>, cfgs: seq<Result<Config>>, n: nat,
                                                 fetch: string -> Result<Q>,
                                                 create: Q -> Result<seq<seq<SequenceEvent>>>, conv: NoteConversions)
    requires n <= |channels| == |cfgs| <= MAX_CHANNELS
    requires forall k :: 0 <= k < |cfgs| && cfgs[k].Ok? ==>
      forall e :: e in cfgs[k].value.controllers ==> ChannelController(e, k)
    ensures var acc := ChannelsAfter(channels, cfgs, n, fetch, create, conv);
      acc.Ok? ==> SetUpAtZero(acc.value)
  {
    if n > 0 {
      ChannelsWithAtZero(channels, cfgs, n - 1, fetch, create, conv);
      var prev := ChannelsAfter(channels, cfgs, n - 1, fetch, create, conv);
      if prev.Ok? {
        ChannelAccAtZero(prev.value, channels[n - 1], n - 1, cfgs[n - 1], fetch, create, conv);
        assert ChannelsAfter(channels, cfgs, n, fetch, create, conv)
            == ChannelAcc(prev.value, channels[n - 1], n - 1, cfgs[n - 1], fetch, create, conv);
      } else {
        assert ChannelsAfter(channels, cfgs, n, fetch, create, conv).Err?;
      }
    }
  }

  /** Every controller and program change event is at tick 0. */
  predicate SetUpAtZero(acc: Acc) {
    (forall e :: e in acc.controllers ==> e.tick == 0) && (forall e :: e in acc.programs ==> e.tick == 0)
  }

  lemma ChannelAccAtZero<Q>(acc: Acc, ch: MidiChannel, number: nat, cfg: Result<Config>,
                            fetch: string -> Result<Q>, create: Q -> Result<seq<seq<SequenceEvent>>>,
                            conv: NoteConversions)
    requires number < MAX_CHANNELS && SetUpAtZero(acc)
    requires cfg.Ok? ==> forall e :: e in cfg.value.controllers ==> ChannelController(e, number)
    ensures var r := ChannelAcc(acc, ch, number, cfg, fetch, create, conv); r.Ok? ==> SetUpAtZero(r.value)
  {
  }

  /** A sequence `NewMidiSeq` makes sends its set-up events at offset 0 of
      the first cycle that sends anything. */
  lemma PreludeAtOffsetZero<Q>(sequence: MidiSequence, fetch: string -> Result<Q>,
                               create: Q -> Result<seq<seq<SequenceEvent>>>, conv: NoteConversions,
                               events: seq<MidiEvent>, midiUrid: nat)
    requires |sequence.channels| <= MAX_CHANNELS
    requires ChannelsAfter(sequence.channels, Configs(sequence.channels), |sequence.channels|, fetch, create, conv).Ok?
    ensures var acc := ChannelsAfter(sequence.channels, Configs(sequence.channels), |sequence.channels|, fetch, create, conv).value;
      var p := Prelude(MidiSeq(acc.controllers, acc.programs, events, midiUrid));
      |p| == |acc.controllers| + |acc.programs| && forall i :: 0 <= i < |p| ==> p[i].0 == 0
  {
    ChannelsAtZero(sequence.channels, |sequence.channels|, fetch, create, conv);
    var acc := ChannelsAfter(sequence.channels, Configs(sequence.channels), |sequence.channels|, fetch, create, conv).value;
    assert SetUpAtZero(acc);
    var p := Prelude(MidiSeq(acc.controllers, acc.programs, events, midiUrid));
    forall i | 0 <= i < |p|
      ensures p[i].0 == 0
    {
      if i < |acc.controllers| {
        assert acc.controllers[i] in acc.controllers;
      } else {
        assert acc.programs[i - |acc.controllers|] in acc.programs;
      }
    }
  }

  /** With the note events sorted, the events from the first one at or after
      `tick` up to the first one at or after `tick + len` are exactly those
      whose tick lies in `[tick, tick + len)`. */
  lemma WindowExact(s: seq<MidiEvent>, tick: int, len: nat)
    requires SortedByTick(s)
    ensures var lo := FirstAtOrAfter(s, tick, 0);
      var hi := FirstAtOrAfter(s, tick + len, lo);
      forall k :: 0 <= k < |s| ==> (lo <= k < hi <==> tick <= s[k].tick < tick + len)
  {
  }

  /** Whether any note event is at or after `tick`. */
  predicate Pending(m: MidiSeq, tick: int)
  {
    FirstAtOrAfter(m.events, tick, 0) < |m.events|
  }

  /** What one cycle sends: nothing when no event is pending; otherwise the
      set-up events if not sent yet, then the events of the window, at their
      offsets. */
  function CycleEvents(m: MidiSeq, tick: int, len: nat, initialized: bool): seq<(int, seq<Byte>)>
  {
    var lo := FirstAtOrAfter(m.events, tick, 0);
    if lo < |m.events| then
      (if initialized then [] else Prelude(m)) + AtOffsets(m.events[lo..FirstAtOrAfter(m.events, tick + len, lo)], tick)
    else []
  }

  /** Where the cursor is left: after the window when an event was pending,
      where it was otherwise. */
  function CycleIndex(m: MidiSeq, tick: int, len: nat, index: nat): nat
  {
    var lo := FirstAtOrAfter(m.events, tick, 0);
    if lo < |m.events| then FirstAtOrAfter(m.events, tick + len, lo) else index
  }

  /** One cycle of a MIDI output from `tick`, `len` frames long: the cursor
      moves back, then forward, to the first event at or after `tick`. If an
      event remains, the set-up events go out first the first time, then
      every event before `tick + len` at its offset, and the cursor is saved
      there. A cursor past the end of the events makes the source index out
      of bounds. */
  method MakeMidiEvent(m: MidiSeq, tick: int, len: nat, reminder: EventReminder)
    returns (r: Run<seq<(int, seq<Byte>)>>)
    requires SortedByTick(m.events)
    modifies reminder
    ensures r.Panic? <==> old(reminder.index) > |m.events|
    ensures r.Panic? ==> unchanged(reminder)
    ensures r.Done? ==> r.value == CycleEvents(m, tick, len, old(reminder.initialized))
    ensures r.Done? ==> reminder.index == CycleIndex(m, tick, len, old(reminder.index))
    ensures r.Done? ==> reminder.initialized == (old(reminder.initialized) || Pending(m, tick))
    ensures reminder.lastValue == old(reminder.lastValue)
  {
    if reminder.index > |m.events| {
      return Panic("index out of bounds");
    }
    var out, evIdx, pending := Cycle(m, tick, len, reminder.index, reminder.initialized);
    if pending {
      reminder.initialized := true;
      reminder.index := evIdx;
    }
    return Done(out);
  }

  /** The body of `make_midi_event` on values: what goes out, where the
      cursor goes, and whether an event was pending. */
  method Cycle(m: MidiSeq, tick: int, len: nat, index: nat, initialized: bool)
    returns (out: seq<(int, seq<Byte>)>, evIdx: nat, pending: bool)
    requires SortedByTick(m.events) && index <= |m.events|
    ensures out == CycleEvents(m, tick, len, initialized)
    ensures pending == Pending(m, tick)
    ensures pending ==> evIdx == CycleIndex(m, tick, len, index)
  {
    evIdx := Reposition(m.events, index, tick);
    out := [];
    pending := evIdx < |m.events|;
    if pending {
      if !initialized {
        out := out + AtOffsets(m.controllerEvents, 0);
        out := out + AtOffsets(m.programChangeEvents, 0);
      }
      var window;
      window, evIdx := Emit(m.events, evIdx, tick, tick + len);
      out := out + window;
    }
  }

  /** The two cursor loops of `make_midi_event`: back over the events at or
      after `tick`, then forward over those before it; on sorted events
      this is the first event at or after `tick`, wherever the cursor
      started. */
  method Reposition(events: seq<MidiEvent>, start: nat, tick: int) returns (evIdx: nat)
    requires SortedByTick(events) && start <= |events|
    ensures evIdx == FirstAtOrAfter(events, tick, 0)
  {
    evIdx := start;
    while evIdx > 0 && events[evIdx - 1].tick >= tick
      invariant evIdx <= start
    {
      evIdx := evIdx - 1;
    }
    while evIdx < |events| && events[evIdx].tick < tick
      invariant evIdx <= |events|
      invariant forall k :: 0 <= k < evIdx ==> events[k].tick < tick
    {
      evIdx := evIdx + 1;
    }
    FirstAtOrAfterUnique(events, tick, 0, evIdx);
  }

  /** The emitting loop of `make_midi_event`: every event from `lo` on that
      is before `endT`, at its offset from `tick`. */
  method Emit(events: seq<MidiEvent>, lo: nat, tick: int, endT: int)
    returns (out: seq<(int, seq<Byte>)>, evIdx: nat)
    requires lo <= |events|
    ensures evIdx == FirstAtOrAfter(events, endT, lo)
    ensures out == AtOffsets(events[lo..evIdx], tick)
  {
    out, evIdx := [], lo;
    while evIdx < |events| && events[evIdx].tick < endT
      invariant lo <= evIdx <= |events|
      invariant forall k :: lo <= k < evIdx ==> events[k].tick < endT
      invariant out == AtOffsets(events[lo..evIdx], tick)
    {
      var ev := events[evIdx];
      out := out + [(ev.tick - tick, ev.data)];
      assert events[lo..evIdx + 1][..evIdx - lo] == events[lo..evIdx];
      evIdx := evIdx + 1;
    }
    FirstAtOrAfterUnique(events, endT, lo, evIdx);
  }
}
