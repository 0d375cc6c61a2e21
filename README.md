# graffophone, modelled in Dafny

graffophone is a modular synthesiser. A *band* is a graph of *talkers*,
such as oscillators, sequencers and LV2 plug-ins. Each talker has *voices*
(outputs) and *ears* (inputs). An ear is a list of *sets*; a set holds
*hums*, one per input port; a hum mixes the *talks* it hears. A talk is
another talker's voice or a constant. Mixers turn the band into tracks and
write them to outputs. A GTK editor lets the user select, connect and
replace talkers. A stand-alone Python tool, `Chords.py`, arpeggiates a
score into six-voice chords.

This project models the exact, sequential logic under the audio and the
GUI, one Dafny module per source file:

- **Chord arpeggiator** (`chords.dfy`). The chord templates, the per-voice
  settings, and the line-by-line transform of a score (`execute`). That
  covers the stroke direction, the muted-voice trimming, and the tick,
  length and velocity offsets.
- **Session formats** (`session_parser.dfy`, `session.dfy`). The block
  parser of band texts, and the older line format with its `id#name`
  module references.
- **Signal graph** (`ear.dfy`, `talker.dfy`, `band.dfy`, `voice.dfy`,
  `plugin_ear.dfy`, `identifier.dfy`, `data.dfy`). Ears are edited as
  nested vectors. When an ear set goes, its voices go and the rest are
  renumbered. When a talker is replaced, some of its ports are
  invalidated. Also here: the voice tick cache, id counters with naming
  rules, and plug-in data values.
- **Tseq sequencer** (`scale.dfy`, `pitch_fetcher.dfy` and `tseq_*.dfy`).
  Pitch names and numbers, pitch-line rotation, transposition and
  inversion, the tseq grammar, the binder and its lookups, event cycling
  and clipping, fade ticks, and MIDI event emission.
- **Tables and records** (`channel.dfy`, `output_presenter.dfy`,
  `audiofile_output.dfy`, `mixer.dfy`, `mixer_presenter.dfy`,
  `plugins_manager.dfy`, `talker_handler.dfy`, `dsp.dfy`, `util.dfy`).
  Channel layouts, codec and rate indices, the `codec|rate|layout|path`
  backup line, mixer outputs and clamping, the plug-in catalogue, and
  file-extension handling.
- **GUI selection state** (`graph_presenter.dfy`, `graph_controler.dfy`,
  `event_bus.dfy`, `band_operation.dfy`). What a click selects, which
  notifications it announces, and which band edits it asks for.
- **LV2 and MIDI bytes** (`lv2_atom.dfy`, `lv2_midi.dfy`, `midi_event.dfy`,
  `forge.dfy`, `atom_forge.dfy`, `simple_mapper.dfy`, `urid_map.dfy`,
  `options.dfy`):
  - the atom padding rule (64-bit alignment) and sequence stepping;
  - MIDI status bytes and the raw encoding of messages, as in the MIDI 1.0
    Detailed Specification's "Summary of MIDI Messages";
  - the atom forge, writing into a byte array and growing the nested
    sequence headers;
  - the URID mappers;
  - the LV2 options array, which always stays terminated by an empty option.

Shared helpers sit in `wrappers.dfy`, `numeric.dfy`, `strs.dfy`,
`seqs.dfy` and `sorting.dfy`:

- `Option`, `Result` and `Run`. `Run` is either `Done` or a Rust `Panic`.
- Rust's integer and float text grammars.
- String splitting and searching.
- Sequence helpers.
- Rust's ordering of strings and a sort.

Integer widths are explicit. An overflow, an `unwrap` on an error, or an
out-of-range index in the source is a `Panic` outcome, not a precondition.
The model does not compute with floating-point values, with two exceptions:

- values that are only compared, added or truncated are `real`;
- `f32` literals are kept as their text.

The state the source changes in place is kept in classes:

- the undo list;
- the talker voices;
- the band;
- the tseq binder and event builders;
- mixers and presenters;
- the forge over its byte array;
- the mappers and the options.

Each method is proved equal to a function, and lemmas state what the
source promises about that function.

## Model

| member | source | states |
|---|---|---|
| `Chords.ChordTableShape` | Chords.py:16-40 | the chord menu has 23 entries, each with six relative pitches and six mute flags |
| `Chords.Trunc` | Chords.py:277 | Python's `int()` on a float truncates toward zero: the result is the integer part on either side of zero |
| `Chords.Begin` | Chords.py:211-215 | `begin` is the first voice that is not muted, every voice before it is muted, and it is 0 when all six are muted |
| `Chords.End` | Chords.py:217-221 | `end` is the last voice that is not muted, every voice after it is muted, and it is 0 when all six are muted |
| `Chords.BeginAtMostEnd` | Chords.py:211-221 | `begin <= end`, so the stroke range is never empty |
| `Chords.FindBegin` | Chords.py:211-215 | the early-exit scan returns `Begin(mute)` |
| `Chords.FindEnd` | Chords.py:217-221 | the backward early-exit scan returns `End(mute)` |
| `Chords.AscendingVoices` | Chords.py:223-225 | entry `k` of an ascending stroke is voice `b+k`, with tick gap and velocity gap of index `(b+k) % 5` |
| `Chords.DescendingVoices` | Chords.py:227-229 | entry `k` of a descending stroke is voice `e-k`, with gap fields of index `max(e-k-1, 0)` |
| `Chords.DownNotesVoices` | Chords.py:223-225 | `downNotes` holds voices `begin..end` ascending (one to six of them), gap fields taken from `i % 5` |
| `Chords.UpNotesVoices` | Chords.py:227-229 | `upNotes` holds voices `end..begin` descending, gap fields taken from `max(i-1, 0)` |
| `Chords.MirroredStrokes` | Chords.py:223-229 | over the same range, the descending stroke is the ascending one reversed in pitch, mute and length factor |
| `Chords.UpNotesMirrorDownNotes` | Chords.py:223-229 | `upNotes` plays the voices of `downNotes` in reverse order |
| `Chords.Totals` | Chords.py:231-237 | the loop sums tick gaps and tick-gap length rates over every down voice but the last |
| `Chords.LastBeatLenWins` | Chords.py:239-244 | when `BEATLEN` lines are present, the beat length is the value of the last one |
| `Chords.NoBeatLenDefault` | Chords.py:239-244 | without a `BEATLEN` line the beat length is `2*(totalTickGap + totalTickGapLengthRate)` |
| `Chords.FindBeatLen` | Chords.py:239-244 | the loop over the score yields the value of the last `BEATLEN` line, else the default |
| `Chords.StrokeDirection` | Chords.py:263-269 | a gap over a beat forces a down stroke, a gap under a beat flips the direction, exactly one beat keeps it |
| `Chords.DownStrokeWhen` | Chords.py:263-274 | both directions of when a note is played with `downNotes` |
| `Chords.FirstNoteIsDownStroke` | Chords.py:246-265 | with `lastTick = -4*beatLen` and `up = False` initially, the first note at a tick above `-3*beatLen` is a down stroke |
| `Chords.StrokeFollowsNotes` | Chords.py:269-300 | `lastTick` becomes the tick of every NOTE line; other lines leave the stroke state unchanged |
| `Chords.VoiceSounds` | Chords.py:290-292 | a voice emits exactly when it is not muted and `l > 0`, and emits `NOTE t (P+relativePitch) l v` |
| `Chords.PlainLength` | Chords.py:286 | without complete mode and limit, a voice lasts `int(L*lengthRate)` |
| `Chords.CompleteLengths` | Chords.py:276-285 | in complete mode the k-th voice lasts the lengthened note minus twice the sum of the gaps taken before it |
| `Chords.LimitedNotesEndInTime` | Chords.py:288 | in limited mode no generated note ends after the played note (`t + l <= T + L`) |
| `Chords.PlayVoicesTicks` | Chords.py:295-297 | after a stroke the tick has advanced by the sum of `int(tickGap + L*tglr)` and the velocity by the sum of velocity gaps, emitted or not |
| `Chords.PlayVoicesEmits` | Chords.py:283-293 | a stroke emits only generated notes, at most one per voice, each with positive length and the input's tag |
| `Chords.PlayVoicesStep` | Chords.py:283-297 | playing one more voice appends that voice's step to the stroke's output |
| `Chords.PlayNote` | Chords.py:276-297 | the voice loop of one note produces exactly the notes of the stroke specification |
| `Chords.PassesAppend` | Chords.py:299-300 | the copied lines of two concatenated outputs are the copied lines of each, in order |
| `Chords.PassThroughInOrder` | Chords.py:251-300 | every non-`NOTE` line (BEATLEN included) is copied unchanged, in order, and no other line is copied |
| `Chords.PassThrough` | Chords.py:203-300 | the same pass-through property for the whole transform of a score |
| `Chords.Run` | Chords.py:246-300 | a score without NOTE lines is copied line for line and leaves the stroke state at its start; after a score ending in a NOTE line, `lastTick` is that note's tick |
| `Chords.Transform` | Chords.py:203-300 | the lines the transform copies are exactly the non-`NOTE` lines of the score, in order |
| `Chords.RunLines` | Chords.py:246-300 | the loop over the score, with `up` and `lastTick` as locals, yields the specified transform |
| `Chords.ScriptClass.Execute` | Chords.py:203-300 | `execute` returns the transform of the score under the window's current settings |
| `Chords.ScriptClass.constructor` | Chords.py:52-80 | tick gaps start at 8, their rates at 0, velocity gaps at -2, length factors at 1, and the first chord is selected |
| `Chords.ScriptClass.SetChord` | Chords.py:168-173 | selecting a chord overwrites only the six relative pitches and mute flags |
| `Chords.ScriptClass.SetRP` | Chords.py:175-176 | every relative pitch takes the value; nothing else changes |
| `Chords.ScriptClass.SetTG` | Chords.py:178-179 | every tick gap takes the value; nothing else changes |
| `Chords.ScriptClass.SetTGLR` | Chords.py:181-182 | every tick-gap length rate takes the value; nothing else changes |
| `Chords.ScriptClass.SetVG` | Chords.py:184-185 | every velocity gap takes the value; nothing else changes |
| `Chords.ScriptClass.SetMT` | Chords.py:187-188 | every mute flag takes the value; nothing else changes |
| `Chords.ScriptClass.SetLR` | Chords.py:190-191 | every length factor takes the value; nothing else changes |
| `Chords.ScriptClass.DisableLR` | Chords.py:193-196 | the length factors are greyed out or back in, and greying them out unchecks "limited" |
| `Chords.ScriptClass.ClickComplete` | Chords.py:147-196 | checking "complete" unchecks "limited", so both are never checked together |
| `Chords.ScriptClass.ClickLimited` | Chords.py:151-201 | checking "limited" unchecks "complete" and re-enables the length factors |
| `UndoRedo.NewStates` | src/undo_redo_list.rs:24-39 | after `new_state` the list is one longer, ends with the new state, and keeps `states[0..position)` |
| `UndoRedo.NewStatesKeepsEveryState` | src/undo_redo_list.rs:24-39 | no state is lost: the new list holds exactly the old states plus the new one |
| `UndoRedo.UndoAfterNewState` | src/undo_redo_list.rs:24-50 | undoing from the new state walks back through the previously undone states, then through the older ones |
| `UndoRedo.SwappedAt` | src/undo_redo_list.rs:29-36 | after `i` swaps, the `i` states after `position` and the last `i` states have traded places |
| `UndoRedo.SwappedAll` | src/undo_redo_list.rs:26-37 | when the swaps from both ends meet, `states[position..]` is reversed and the prefix unchanged |
| `UndoRedo.UndoRedoList.constructor` | src/undo_redo_list.rs:8-16 | `new` gives `states == [""]` and `position == 0` |
| `UndoRedo.UndoRedoList.Reset` | src/undo_redo_list.rs:18-22 | `reset` gives `states == [""]` and `position == 0` |
| `UndoRedo.UndoRedoList.NewState` | src/undo_redo_list.rs:24-40 | the in-place swaps reverse the tail from `position`, the new state is appended and becomes current (`position == len-1`) |
| `UndoRedo.UndoRedoList.Undo` | src/undo_redo_list.rs:42-50 | at position 0 returns None and changes nothing; otherwise steps back and returns the state there; `position < len` is kept |
| `UndoRedo.UndoRedoList.Redo` | src/undo_redo_list.rs:52-60 | at the last index returns None; otherwise steps forward and returns the state there; `position < len` is kept |
| `SessionParser.IdFromStr` | session/src/parser.rs:42-51 | an identifier is a decimal `u32`; otherwise the error reads "Failed to get id from {text} : {reason}" |
| `SessionParser.IdFromStrFormat` | session/src/parser.rs:42-51 | the decimal text of any `u32` identifier reads back as that identifier |
| `SessionParser.IdFromStrRefusesNonDigits` | session/src/parser.rs:42-51 | a text holding a character that is not a digit (a leading `+` aside) is refused |
| `SessionParser.ParseIdName` | session/src/parser.rs:53-69 | the id is the text before the first `#` (searched in the whole text), the name runs to the line end, the rest starts after it; the name never holds a line end |
| `SessionParser.IdNameAt` | session/src/parser.rs:53-69 | with `#` at `h` and the first line end at `n > h`, the id is read from `src[..h]`, the name is `src[h+1..n]`, the rest `src[n+1..]` |
| `SessionParser.ReadIdName` | session/src/parser.rs:53-69 | `id#name\n` followed by any text reads back as `(id, name)` and that text |
| `SessionParser.ParseData` | session/src/parser.rs:71-79 | a text not starting with `[:` gives None and is returned unchanged; this step never fails with an error |
| `SessionParser.ReadData` | session/src/parser.rs:71-79 | `[:data:]\n` reads back as `Some(data)` for data without a line end, and no data line reads as None |
| `SessionParser.DataEndNotBefore` | session/src/parser.rs:73 | a data text without a line end holds no `:]\n` before its own terminator |
| `SessionParser.EarFields` | session/src/parser.rs:90-116 | the ear tag and hum tag hold no `.`; missing parts are "" or 0 and indexes that do not parse are 0 |
| `SessionParser.EarFieldsOfText` | session/src/parser.rs:93-116 | `tag.set.hum.talk` gives its four fields, with unparsable indexes read as 0 |
| `SessionParser.ReadEarFields` | session/src/parser.rs:93-116 | the ear text of a connection reads back as its four fields |
| `SessionParser.TalkOf` | session/src/parser.rs:121-138 | the talk is a constant exactly when the text parses as an `f32`; otherwise `id:voice`, or `id` with voice "" |
| `SessionParser.ReadTalk` | session/src/parser.rs:121-138 | the text of a talk reads back as that talk |
| `SessionParser.TalkTextHasNoLineEnd` | session/src/parser.rs:118-119 | a writable talk's text holds no line end |
| `SessionParser.ParseConnection` | session/src/parser.rs:88-148 | a connection line consumes text up to and including its line end |
| `SessionParser.ConnectionOfText` | session/src/parser.rs:90-148 | `ear <- talk\n` gives the ear fields of `ear` and the talk of `talk`, and the rest after the line |
| `SessionParser.ReadConnection` | session/src/parser.rs:88-148 | a connection line reads back as the connection it was written from |
| `SessionParser.ConnectionsOf` | session/src/parser.rs:81-151 | connections are read while lines start with `> `; the text left does not start with `> ` and is a suffix of the input |
| `SessionParser.ConnectionsStep` | session/src/parser.rs:87-149 | one `> ` line adds its connection in front of those read after it |
| `SessionParser.ParseConnections` | session/src/parser.rs:81-151 | the loop of `parse_connections` returns exactly the connections of the specification |
| `SessionParser.ReadConnectionLine` | session/src/parser.rs:87-149 | a connection line in front of a text adds its connection in front |
| `SessionParser.ReadMoreConnections` | session/src/parser.rs:87-149 | a connection line in front of lines that read back reads back too |
| `SessionParser.ReadConnections` | session/src/parser.rs:81-151 | consecutive connection lines read back as their connections, in order, stopping at the first other line |
| `SessionParser.ParseOutputId` | session/src/parser.rs:158-164 | an output line gives a `u32` id and the text after its line end |
| `SessionParser.OutputIdOfText` | session/src/parser.rs:158-164 | `id\n` gives the id read from the text before the line end, or its error |
| `SessionParser.OutputsOf` | session/src/parser.rs:153-167 | output ids are read while lines start with `< `; all are `u32` and the text left does not start with `< ` |
| `SessionParser.OutputsCons` | session/src/parser.rs:157-165 | one more output id in front keeps all ids in `u32` range and the rest a suffix |
| `SessionParser.OutputsStep` | session/src/parser.rs:157-165 | one `< ` line adds its id in front of those read after it |
| `SessionParser.ParseOutputs` | session/src/parser.rs:153-167 | the loop of `parse_outputs` returns exactly the ids of the specification |
| `SessionParser.ReadOutputLine` | session/src/parser.rs:157-165 | an output line `< id\n` in front of a text adds `id` in front |
| `SessionParser.ReadOutputs` | session/src/parser.rs:153-167 | consecutive output lines read back as their ids, in order |
| `SessionParser.MixerBlock` | session/src/parser.rs:188-200 | a mixer block is its id and name, then its connections, then its outputs, and consumes text |
| `SessionParser.OutputBlock` | session/src/parser.rs:201-216 | an output block is its model (up to the first space), id and name, then optional data |
| `SessionParser.TalkerBlock` | session/src/parser.rs:217-231 | a talker block is its model, id and name, optional data, then connections |
| `SessionParser.ParseMixerBlock` | session/src/parser.rs:188-200 | the mixer branch of `parse` returns the specified mixer block |
| `SessionParser.ParseOutputBlock` | session/src/parser.rs:201-216 | the output branch of `parse` returns the specified output block |
| `SessionParser.ParseTalkerBlock` | session/src/parser.rs:217-231 | the talker branch of `parse` returns the specified talker block |
| `SessionParser.Parse` | session/src/parser.rs:169-238 | blank lines are skipped, `mixer ` and `output ` blocks go to their maps, other `model id#name` blocks are talkers, a later block replaces an earlier one with the same id |
| `SessionParser.BandFrom` | session/src/parser.rs:183-237 | the block loop only adds or replaces: every talker, mixer and output id read before is still present after a successful parse |
| `SessionParser.BandFromNewLine` | session/src/parser.rs:186-187 | a line end between blocks is skipped |
| `SessionParser.BandFromTalker` | session/src/parser.rs:217-231 | a talker block is filed in the talker map under its id, replacing any earlier one |
| `SessionParser.BandFromMixer` | session/src/parser.rs:188-200 | a mixer block is filed in the mixer map under its id, replacing any earlier one |
| `SessionParser.BandFromOutput` | session/src/parser.rs:201-216 | an output block is filed in the output map under its id, replacing any earlier one |
| `SessionParser.BandFromTalkerAborts` | session/src/parser.rs:217-221 | a talker block that panics makes the whole parse panic |
| `SessionParser.ReadTalkerBlock` | session/src/parser.rs:217-231 | the text of a talker block reads back as that talker |
| `SessionParser.ReadTalkerText` | session/src/parser.rs:185-231 | a talker block after a line end is read back and replaces any earlier talker with its id |
| `SessionParser.ReadMixerText` | session/src/parser.rs:185-200 | a mixer block after a line end is read back and replaces any earlier mixer with its id |
| `SessionParser.ReadOutputText` | session/src/parser.rs:185-216 | an output block after a line end is read back and replaces any earlier output with its id |
| `SessionParser.ReadBlockText` | session/src/parser.rs:185-235 | any block text is read back into the map of its kind |
| `SessionParser.ReadBandText` | session/src/parser.rs:169-238 | a band text made of blocks is parsed into the maps those blocks enter, one after another |
| `SessionParser.ReadBack` | session/src/parser.rs:169-238 | `parse` gives back the talkers, mixers and outputs a band text was written from, the last with one id winning |
| `SessionParser.SavedConnectionDoesNotReadBack` | session/src/band.rs:221-243 | a band with one connection, as `Band::serialize` writes it, makes `parse` panic: the saved line has no ` <- ` |
| `SessionParser.SavedLineAborts` | session/src/parser.rs:90 | a saved connection line `> e.s.h talk` with no ` <- ` makes `parse_connections` panic |
| `SessionParser.ConnectionAbortsTalker` | session/src/parser.rs:219-221 | a talker block whose first connection panics panics |
| `SessionParser.TalkerAbortsBand` | session/src/parser.rs:185-235 | a talker block that panics after a line end makes the whole parse panic |
| `SessionParser.OneSpaceNoArrow` | session/src/band.rs:232-239 | a text with a single space holds no ` <- ` |
| `SessionParser.BareIdReadsAsConstant` | session/src/band.rs:236-237 | a talker voice with an empty tag is saved as a bare id, which `parse` reads as a constant value |
| `Session.Mref` | src/session.rs:93-95 | `mref(id, name)` is `id#name` with every space and tab of the name replaced by `_`, so it holds no blank |
| `Session.NameFromMref` | src/session.rs:97-105 | the result is the part after `#` of a two-piece mref (so it holds no `#`), or the whole mref |
| `Session.IdFromMref` | src/session.rs:107-117 | the text before the first `#` read as a `u32`, or the error "Failed to get id from mref {mref} : …" |
| `Session.MrefRoundTrip` | src/session.rs:93-117 | for a name without `#`, `id_from_mref(mref(i, n)) == i` and `name_from_mref(mref(i, n))` is `n` with blanks replaced |
| `Session.HashInNameKeepsMref` | src/session.rs:93-105 | a name holding `#` does not survive: `name_from_mref` then returns the whole mref |
| `Session.Tidy` | src/session.rs:119-135 | a module goes into the map of its kind (track, mixer, output, otherwise talker) under its mref, the other maps unchanged; an empty kind is dropped |
| `Session.Words` | src/session.rs:157 | a trimmed line split at every space and tab has at least one word |
| `Session.LineStep` | src/session.rs:156-184 | comment lines and lines of fewer than two words change nothing; an error arises only for a `>` line before any module |
| `Session.ScanFailsOnlyOnAttribut` | src/session.rs:156-187 | the loop over the lines (`Scan`) fails only when some line is an attribute line (first word `>`) |
| `Session.DecsOf` | src/session.rs:137-188 | no lines give four empty maps, and `make_decs` fails only on an attribute line |
| `Session.MakeDecs` | src/session.rs:137-188 | the loop over the lines gives the specified maps or the first error |
| `Session.Kept` | src/session.rs:159-183 | the lines that matter: none of them is a comment or a line of fewer than two words |
| `Session.ScanIgnoresComments` | src/session.rs:156-185 | dropping comment lines and one-word lines anywhere does not change what a session reads as |
| `Session.ReadHeadLine` | src/session.rs:175-182 | a 2- or 3-word module line files the module in hand and opens a new one with no attributes |
| `Session.ReadTalkText` | src/session.rs:162-165 | the talk text `talker[:voice]` is one word that splits back into its talker and voice ("" when absent) |
| `Session.ReadAttributLine` | src/session.rs:162-174 | a `> tag talker[:voice]` line appends `(tag, talker, voice)` to the module in hand |
| `Session.LineStepAttributWords` | src/session.rs:162-174 | a line whose words are `>`, a tag and a talk text appends the attribute those words give to the module in hand |
| `Session.ScanCons` | src/session.rs:156-185 | reading a line then the following lines is one loop turn then the rest |
| `Session.ScanAttributs` | src/session.rs:162-174 | consecutive attribute lines append their attributes to the module in hand, in order |
| `Session.AppendAttributs` | src/session.rs:173 | appending one attribute then the others is appending them all |
| `Session.ScanModule` | src/session.rs:156-186 | the lines `save` writes for a module (blank line, module line, attribute lines) file the previous module and make this one current |
| `Session.ScanSession` | src/session.rs:366-450 | what `save` writes for a list of modules reads back: every module is filed in order with all its attributes |
| `Session.ReadSession` | src/session.rs:137-188 | `make_decs` of the saved lines of a list of modules files exactly those modules |
| `Session.AttributFirstFails` | src/session.rs:162-172 | an attribute line before any module line is an error |
| `Session.WordsOfThree` | src/session.rs:157 | three blank-free words joined by spaces split back into the three |
| `Session.WordsOfTwo` | src/session.rs:375-379 | a module line with an empty feature (trailing space) splits into its two words |
| `Session.SplitTwo` | src/session.rs:157 | two blank-free words joined by a space split back into the two |
| `TalkerEar.DefTalk` | talker/src/ear.rs:121-128 | the default talk is port 0 of a new constant talker of the port type, which is no band talker |
| `TalkerEar.NewHum` | talker/src/ear.rs:148-171 | a new hum keeps its talks and type, takes tag "" by default, and owns a mixing horn exactly when it has more than one talk |
| `TalkerEar.WithTalks` | talker/src/ear.rs:207-217 | the same hum (tag, type, range) with other talks, the horn rule kept |
| `TalkerEar.TalksWith` | talker/src/ear.rs:192-205 | `None` removes the talk at `i`; `Some(t)` replaces it, others kept in place; an index past the end appends `t` or changes nothing |
| `TalkerEar.BuildTalksWith` | talker/src/ear.rs:192-205 | the two copying loops compute `TalksWith` |
| `TalkerEar.AddTalk` | talker/src/ear.rs:302-304 | the talk is appended; tag and type kept; horn rule kept |
| `TalkerEar.SupTalk` | talker/src/ear.rs:333-336 | exactly the talk at `i` is removed (nothing when past the end); tag and type kept |
| `TalkerEar.SetTalkValue` | talker/src/ear.rs:337-343 | the talk at `i` becomes a constant talk of the value, the others kept; past the end one is appended |
| `TalkerEar.CheckVoice` | talker/src/ear.rs:308-320 | success exactly when the hum's port type can hear the voice's; otherwise the error "Talker {name} voice {port} type {voice type} is not compatible with {tag} type {hum type}!" |
| `TalkerEar.ApplyEdit` | talker/src/ear.rs:836-901 | the hum edits keep tag, type and horn rule, and fail exactly for a voice edit the hum cannot hear |
| `TalkerEar.FirstValue` | talker/src/ear.rs:257-267 | the result is the value of the first talk that has one, and None exactly when no talk has one |
| `TalkerEar.HumValue` | talker/src/ear.rs:254-267 | an Atom hum has no value; any other has the first value among its talks |
| `TalkerEar.FirstTag` | talker/src/ear.rs:456-463 | the first index whose hum carries the tag, None exactly when none does |
| `TalkerEar.FindHumIndex` | talker/src/ear.rs:456-463 | the first hum with the tag, or exactly when none has it the error "hum {tag} not found!" |
| `TalkerEar.WithHum` | talker/src/ear.rs:465-481 | panics exactly past the hums; the edit's error is passed on; otherwise only hum `i` changes, to the edited hum |
| `TalkerEar.BuildWithHum` | talker/src/ear.rs:465-481 | the loops of `with_hum` compute `WithHum` |
| `TalkerEar.NewEar` | talker/src/ear.rs:513-525 | tag "In" and no sets by default; stem set and multi-hum flag as given |
| `TalkerEar.AddSet` | talker/src/ear.rs:718-736 | without a stem set the error "Ear {tag} stem set not found!"; otherwise a copy of the stem set is appended and its index (the old length) returned |
| `TalkerEar.SupSet` | talker/src/ear.rs:738-748 | exactly the set at `i` is removed; an ear with no set panics (the `len - 1` capacity underflows) |
| `TalkerEar.BuildSupSet` | talker/src/ear.rs:738-748 | the copying loop computes `SupSet` |
| `TalkerEar.SetHum` | talker/src/ear.rs:772-805 | a set past the end without a stem set is the stem error; on success tag, stem set and flags are kept |
| `TalkerEar.EditSet` | talker/src/ear.rs:778-790 | on an existing set only that set changes, to `with_hum` of it; a hum index past that set's hums panics |
| `TalkerEar.PadSets` | talker/src/ear.rs:791-803 | past the last set: the old sets, copies of the stem up to `set_idx`, then the edited stem |
| `TalkerEar.BuildSetHum` | talker/src/ear.rs:772-805 | the loops of `set_hum` compute `SetHum` |
| `TalkerEar.BuildEditSet` | talker/src/ear.rs:778-790 | the loop over existing sets computes `EditSet` |
| `TalkerEar.BuildPadSets` | talker/src/ear.rs:791-803 | the padding loop computes `PadSets` |
| `TalkerEar.EarFindHumIndex` | talker/src/ear.rs:807-815 | the hum is looked for in the stem set, else in the first set, else "hum {tag} not found!" |
| `TalkerEar.Rewritten` | talker/src/ear.rs:902-1001 | a rewrite of the talks never adds one, and a redirection keeps them all |
| `TalkerEar.RewrittenHum` | talker/src/ear.rs:902-1001 | a rewritten hum keeps tag and type and the horn rule |
| `TalkerEar.SearchListeningTalker` | talker/src/ear.rs:552-562 | the three loops return true exactly when some talk of some hum of some set is of the talker (`IsListeningTalker`) |
| `TalkerEar.RewrittenHums` | talker/src/ear.rs:902-1001 | hum for hum, each rewritten |
| `TalkerEar.RewrittenSet` | talker/src/ear.rs:902-1001 | a rewritten set has as many hums |
| `TalkerEar.RewrittenEar` | talker/src/ear.rs:902-1001 | set for set, each rewritten; tag and stem kept |
| `TalkerEar.BuildRewrittenTalks` | talker/src/ear.rs:941-945 | the innermost loop of the three rewrites computes `Rewritten` |
| `TalkerEar.BuildRewrittenHum` | talker/src/ear.rs:938-950 | the loop over a hum's talks with its empty-hum fallback computes `RewrittenHum` |
| `TalkerEar.BuildRewrittenSet` | talker/src/ear.rs:935-952 | the loop over a set's hums computes `RewrittenSet` |
| `TalkerEar.BuildRewrittenEar` | talker/src/ear.rs:931-955 | the loop over the sets computes `RewrittenEar` |
| `TalkerEar.BuildSupTalkerPorts` | talker/src/ear.rs:957-1001 | the first loop (looking for a talk to drop) and the rebuild compute `SupTalkerPorts` |
| `TalkerEar.ReplaceTalker` | talker/src/ear.rs:902-929 | the ear keeps its tag, stem set, sets and hums (tags and port types) and the number of talks of every hum; it no longer listens to the replaced talker unless that talker is its own replacement |
| `TalkerEar.SupTalker` | talker/src/ear.rs:931-955 | the ear keeps its shape, every hum keeps at least one talk (a constant 0 when all went), and it no longer listens to the talker |
| `TalkerEar.SupTalkerPorts` | talker/src/ear.rs:957-1001 | an ear with no talk of the talker on those ports is left unchanged; otherwise it keeps its shape and no hum goes silent; afterwards no talk of the talker is on those ports |
| `TalkerEar.RewrittenEarShape` | talker/src/ear.rs:902-1001 | the three rewrites keep the shape of the ear; a redirection keeps every hum's talk count, a removal leaves no hum without a talk |
| `TalkerEar.RedirectStopsListening` | talker/src/ear.rs:912-917 | redirecting to another talker leaves no talk of the replaced one |
| `TalkerEar.RewrittenMembers` | talker/src/ear.rs:902-1001 | the rewritten talks are exactly the kept talks, renamed |
| `TalkerEar.RedirectedAt` | talker/src/ear.rs:902-930 | a redirection keeps every talk at its place, renamed |
| `TalkerEar.RewrittenHumTalks` | talker/src/ear.rs:931-1001 | a rewritten hum holds the kept talks, renamed, or the one default talk of value 0 |
| `TalkerEar.DropStopsListening` | talker/src/ear.rs:931-956 | the rewrite of `sup_talker` leaves no talk of the talker in the ear |
| `TalkerEar.SupTalkerKeepsOthers` | talker/src/ear.rs:931-956 | every talk of another talker stays in its hum |
| `TalkerEar.HumDropsPorts` | talker/src/ear.rs:979-997 | a hum rewritten by `sup_talker_ports` holds no talk of the talker on one of the ports |
| `TalkerEar.DropPortsStops` | talker/src/ear.rs:979-997 | the rewrite of `sup_talker_ports` leaves no talk of the talker on one of the ports |
| `TalkerEar.SupTalkerPortsKeepsOthers` | talker/src/ear.rs:957-1001 | every talk of another talker, or on another port, stays in its hum |
| `TalkerEar.ReplaceTalkerRedirects` | talker/src/ear.rs:902-930 | the ear keeps its shape and, port for port, exactly the talks of the replaced talker now go to the new one |
| `Talkers.KeptVoices` | talker/src/talker.rs:100-111 | the voices left by the removal walk are never more than before |
| `Talkers.KeptVoicesMembers` | talker/src/talker.rs:100-111 | the voices kept are exactly those not associated with the removed set |
| `Talkers.KeptDistinct` | talker/src/talker.rs:100-111 | removing voices keeps them pairwise distinct |
| `Talkers.TalkerBase.constructor` | talker/src/talker.rs:15-22 | a base built from its fields (identifier, ears, distinct voices, hidden and effective flags) holds them |
| `Talkers.TalkerBase.BufferLen` | talker/src/talker.rs:121-128 | the chunk size for an effective talker, 1 for any other |
| `Talkers.TalkerBase.SupAssociatedVoices` | talker/src/talker.rs:100-111 | walking from the last voice down removes exactly the voices associated with the set, the others kept in order |
| `Talkers.TalkerBase.RenumberAssociatedSets` | talker/src/talker.rs:112-118 | the voices of a later set of the same ear move down one set; no other association, tick or length changes |
| `Talkers.TalkerBase.SupEarSetWithAssociatedVoice` | talker/src/talker.rs:99-119 | both voice loops, then `sup_set` on the ear: an ear index past the ears panics after the voices changed, and the ear loses the set as `sup_set` says |
| `Talkers.TalkerCab.constructor` | talker/src/talker.rs:294-300 | a cab holds the given base and core |
| `Talkers.TalkerCab.Update` | talker/src/talker.rs:305-316 | without a new base, no new cab; with one, the new cab gets the old id and the old core, and the old cab is left with a `NilTalker` core |
| `Talkers.TalkerCab.VoiceTag` | talker/src/talker.rs:376-385 | the tag of an existing port, else "Unknow voice {port} for talker {name}" |
| `Talkers.TalkerCab.VoiceValue` | talker/src/talker.rs:427-436 | a value exactly for a hidden talker whose voice at the port exists and is not Atom, and then the voice's value |
| `Talkers.TalkerCab.SearchDependsOf` | talker/src/talker.rs:326-333 | the loop over the ears returns true exactly when some ear listens to the talker (`DependsOf`) |
| `Talkers.TalkerCab.Talk` | talker/src/talker.rs:567-574 | the voice records `(tick, ln)` exactly when the core produced `ln > 0`, and `ln` is returned |
| `Talkers.Listen` | talker/src/ear.rs:97-108 | a voice already at the tick answers `min(len, voice.len)` without calling its talker; otherwise the talker talks |
| `Bands.Range` | session/src/band.rs:366-368 | the ports from `lo` up to `hi`, excluded |
| `Bands.InvalidatedPorts` | session/src/band.rs:349-368 | as written: a port is invalidated exactly when both talkers have it with different types, or only the new talker has it |
| `Bands.IntendedInvalidatedPorts` | session/src/band.rs:349-368 | corrected: a port of the old talker is kept exactly when the new talker has it with the same type; it invalidates at least the ports the rule as written does |
| `Bands.BuildInvalidatedPorts` | session/src/band.rs:353-368 | the two loops compute `InvalidatedPorts` |
| `Bands.BuildIntendedInvalidatedPorts` | session/src/band.rs:353-368 | the loops, with the ports only the old talker has added, compute `IntendedInvalidatedPorts` |
| `Bands.MappedEars` | session/src/band.rs:373-391 | every ear of a talker is edited, none added or lost |
| `Bands.MapEarsOf` | session/src/band.rs:373-390 | the edit keeps the set of talker ids |
| `Bands.BuildMappedEars` | session/src/band.rs:374-395 | the inner loop over a talker's ears computes `MappedEars` |
| `Bands.BuildStepEar` | session/src/band.rs:375-394 | the body of the inner loop (test `is_listening_talker`, then `sup_talker_ports` and `replace_talker`, or `sup_talker`) computes the step's edit of the ear |
| `Bands.MappedEarsOf` | session/src/band.rs:374-382 | ears edited one by one, position for position, are `MappedEars` |
| `Bands.Band.constructor` | session/src/band.rs:59-65 | a missing map of talkers or mixers is an empty one |
| `Bands.Band.FetchTalker` | session/src/band.rs:417-422 | the talker exactly when its id is in the band, else "Talker {id} not found!" |
| `Bands.Band.AddMixer` | session/src/band.rs:295-300 | the mixer's talker goes in `talkers` and the mixer in `mixers`, both under the mixer's id |
| `Bands.Band.NbChannels` | session/src/band.rs:302-315 | the largest channel count of any output of any mixer, 0 when there is none |
| `Bands.Band.RewriteEars` | session/src/band.rs:373-396 | the loop over the talkers applies the edit to every ear of every talker, mixers unchanged |
| `Bands.Band.SupTalker` | session/src/band.rs:386-397 | the id leaves the band and every remaining ear loses its talks; the result is `Ok` |
| `Bands.Band.ReplaceTalker` | session/src/band.rs:344-384 | as written: an unknown id is "Talker {id} not found!" with nothing changed; otherwise the old id goes, the ears lose talks on `InvalidatedPorts` then follow the new talker, which enters under its own id |
| `Bands.Band.ReplaceTalkerCorrected` | session/src/band.rs:344-384 | the same with `IntendedInvalidatedPorts` |
| `Bands.RewrittenTalk` | talker/src/ear.rs:902-1001 | a talk of a rewritten ear is a kept talk of its hum, renamed, or the default talk of an emptied hum |
| `Bands.SupPortsKeepsFresh` | talker/src/ear.rs:957-1001 | dropping talks brings in no talk of a band talker |
| `Bands.SupPortsAvoids` | talker/src/ear.rs:957-1001 | after `sup_talker_ports` the talker's talks stay on its ports and avoid the dropped ones |
| `Bands.RedirectOnMatchingPorts` | talker/src/ear.rs:902-930 | redirecting talks that avoid the intended invalidated ports puts every talk to the new talker on a port it has, of the old type |
| `Bands.CorrectedReplaceKeepsPortTypes` | session/src/band.rs:373-381 | with the corrected rule, an ear's talks to the new talker all end on ports it has, of the same type as before |
| `Bands.ShorterSameTypesInvalidateNothing` | session/src/band.rs:349-368 | as written, a talker of ports `[Audio, Audio]` replaced by one of `[Audio]` invalidates no port |
| `Bands.LoneTalkRedirected` | session/src/band.rs:373-381 | with no port invalidated, the lone talk to the old talker moves to the new talker on the same port |
| `Bands.InvalidatedPortsKeepsMissingPort` | session/src/band.rs:349-381 | as written, a listener on port 1 of a two-port talker replaced by a one-port talker keeps its talk, now on the missing port 1 |
| `Bands.SupTalkerLeavesNoListener` | session/src/band.rs:386-397 | after `sup_talker` the id is gone, no ear listens to it, and the other talkers keep their shape |
| `Bands.SupTalkerKeepsOtherTalks` | session/src/band.rs:386-397 | every talk of another talker stays in its hum |
| `Bands.ReplaceTalkerRedirectsAll` | session/src/band.rs:369-383 | after `replace_talker` the new talker is in the band under its own id, the old id is gone, and every remaining talk of the old id goes to the new talker |
| `Bands.EarReplaceRedirects` | session/src/band.rs:375-381 | in an edited ear no talk of the old talker is left unredirected |
| `Bands.CorrectedReplaceTalkerKeepsPortTypes` | session/src/band.rs:344-384 | with the corrected rule, over the whole band, every talk to the new talker is on a port it has, of the same type as before |
| `Voices.Voice.constructor` | talker/src/voice.rs:18-25 | tag "Out" by default, the given length and port type, and tick -1 |
| `Voices.Voice.SetTick` | talker/src/voice.rs:35-37 | only the tick changes |
| `Voices.Voice.SetLen` | talker/src/voice.rs:41-43 | only the length changes |
| `Voices.Voice.SetTickLen` | talker/src/voice.rs:44-47 | tick and length are both set, and nothing else changes |
| `Voices.Voice.CanHaveAValue` | talker/src/voice.rs:77-79 | audio, control and cv voices can have a value, atom voices cannot |
| `Voices.Voice.SetAssociatedEarSet` | talker/src/talker.rs:112-115 | the voice is now associated with the given ear and set; its tick and length are unchanged |
| `Voices.AudioVoice` | talker/src/voice.rs:85-89 | an audio voice of chunk-size length, tick -1 |
| `Voices.ControlVoice` | talker/src/voice.rs:90-93 | a control voice of length 1, tick -1 |
| `Voices.CvVoice` | talker/src/voice.rs:94-98 | a cv voice of chunk-size length, tick -1 |
| `Voices.AtomVoice` | talker/src/voice.rs:77-102 | an atom voice of chunk-size length, tick -1, that cannot have a value |
| `Identifiers.SuffixedName` | talker/src/identifier.rs:26-47 | a name ending `(` gets `[model ]id)`, one ending `[` gets `[model ]id]`, any other name is kept; the result starts with the name |
| `Identifiers.TalkerName` | talker/src/identifier.rs:26-48 | an empty name becomes `{id}` or `{model} {id}`, never empty; any other name follows the suffix rule (granode/src/identifier.rs:19-41 is the same rule) |
| `Identifiers.PluginName` | plugin/src/identifier.rs:15-37 | an empty name with an empty kind stays `""`, unlike the talker crate; otherwise the talker crate's rule with the kind in place of the model |
| `Identifiers.IdCounter.constructor` | talker/src/identifier.rs:5 | the counter starts at 1 |
| `Identifiers.IdCounter.Initialize` | talker/src/identifier.rs:20-22 | `initialize_id_count` puts the counter back to 1 (granode/src/identifier.rs:13-15 likewise) |
| `Identifiers.IdCounter.FetchAdd` | talker/src/identifier.rs:24 | the current value is returned and the counter moves on by one, wrapping at 2^32 |
| `Identifiers.IdCounter.Inc` | plugin/src/identifier.rs:6-9 | `inc_count` increments the caller's counter and returns the new value; the `u32` addition past 2^32 - 1 panics |
| `Identifiers.Identifier.constructor` | talker/src/identifier.rs:23-51 | the id is the counter's value, the counter moves on by one, and the name follows `TalkerName` (granode/src/identifier.rs:16-44 likewise) |
| `Identifiers.Identifier.SetId` | talker/src/identifier.rs:56-61 | the id is stored and the counter, when not already past it, becomes `id + 1`, so later ids are greater; the name is kept |
| `Identifiers.Identifier.SetName` | talker/src/identifier.rs:65-67 | only the name changes, so the identifier depends on the same ids |
| `Identifiers.Identifier.DependsOf` | talker/src/identifier.rs:69-71 | an identifier depends exactly on its own id |
| `Identifiers.PluginIdentifier.Init` | plugin/src/identifier.rs:1-4 | an identifier holds the given id and name |
| `Identifiers.PluginIdentifier.SetName` | plugin/src/identifier.rs:48-50 | only the name changes, so the identifier depends on the same ids |
| `Identifiers.PluginIdentifier.DependsOf` | plugin/src/identifier.rs:51-53 | a plugin identifier depends exactly on its own id |
| `Identifiers.NewPluginIdentifier` | plugin/src/identifier.rs:12-40 | the id is the old count plus one, now the count; the name follows `PluginName`; a count at the `u32` limit panics |
| `PluginData.TypeStr` | plugin/src/data.rs:14-23 | each variant has its own name, "Nil", "Int", "Float", "String", "Text" or "File", and the name tells the variant |
| `PluginData.ToI` | plugin/src/data.rs:33-38 | the integer exactly for an `Int`, else "Value type is incompatible with the expected type" |
| `PluginData.ToF` | plugin/src/data.rs:39-44 | the float exactly for a `Float`, else the incompatibility error |
| `PluginData.ToS` | plugin/src/data.rs:45-50 | the text exactly for a `String`, else the incompatibility error |
| `PluginData.ToT` | plugin/src/data.rs:51-56 | the text exactly for a `Text`, else the incompatibility error |
| `PluginData.ToFl` | plugin/src/data.rs:57-62 | the path exactly for a `File`, else the incompatibility error |
| `PluginData.ToText` | plugin/src/data.rs:80-89 | `Nil` is "", an `Int` its decimal text, the three texts their payload unchanged |
| `PluginData.Birth` | plugin/src/data.rs:102-117 | the variant is kept; it fails exactly for an `Int` that is not an `i64` text or a `Float` that is not an `f32` text, with "Value string is incompatible with the expected type"; the texts take `s` unchanged |
| `PluginData.BirthOfToText` | plugin/src/data.rs:80-117 | `birth(d.to_string())` gives `d` back for every value the source can hold |
| `PluginData.BirthOfIntText` | plugin/src/data.rs:82-105 | any `i64` written in decimal is read back by an `Int` as itself |
| `Scales.LastNonDigit` | scale/src/scale.rs:30 | the position of the last character that is not an ASCII digit, none exactly for an all-digit text |
| `Scales.PitchNameToNumber` | scale/src/scale.rs:29-62 | an all-digit text is its number (the `unwrap` panics when it does not fit); a float text is "Tseq pitch frequency {p} has not number!"; a name and octave read as `len * (octave + 1) + index` |
| `Scales.ReadNameOctave` | scale/src/scale.rs:35-53 | the name-and-octave branch: a result is `len * (octave + 1) + index` of the name before the octave |
| `Scales.PitchNumberToName` | scale/src/scale.rs:64-71 | the name at `n % len` followed by the octave `n / len - 1`; a number below the first octave underflows and an empty scale divides by zero, both panics |
| `Scales.LastNonDigitOfDigits` | scale/src/scale.rs:30 | a text ending in a non-digit, followed by digits, is cut after that text |
| `Scales.NotFloatLiteral` | scale/src/scale.rs:32 | a text that starts with no character a float can start with and ends in a digit is not an `f32` literal |
| `Scales.NameWithOctave` | scale/src/scale.rs:30-38 | a well-formed name followed by an octave is cut after the name and is not a float |
| `Scales.ReadNameWithOctave` | scale/src/scale.rs:35-53 | a name followed by an octave, cut after the name, reads as its pitch number |
| `Scales.NameToNumber` | scale/src/scale.rs:29-62 | `pitch_name_to_number(name + octave)` is the name's pitch number |
| `Scales.NameNumberRoundTrip` | scale/src/scale.rs:29-71 | name and octave to number and back to the same text |
| `Scales.DivModPitch` | scale/src/scale.rs:44-66 | the octave and index of a pitch number are recovered by division and remainder |
| `Scales.PitchOfNumber` | scale/src/scale.rs:44-66 | every number from the first octave on is the pitch number of its quotient minus one and its remainder |
| `Scales.NumberNameRoundTrip` | scale/src/scale.rs:29-71 | for a scale of well-formed names, `pitch_name_to_number(pitch_number_to_name(n)) == n` for every `n` from the first octave on |
| `Scales.ScaleCollection` | scale/src/scale.rs:337-350 | the collection holds the pythagorean, natural, 12ET, 17ET, 19ET and 53ET scales, each under its own name |
| `Scales.FetchScale` | scale/src/scale.rs:356-361 | the scale exactly when the name is in the collection, else "Tseq scale {name} unknown!" |
| `Scales.Et24IsNotRegistered` | scale/src/scale.rs:240-270 | the 24ET scale is built but cannot be fetched |
| `Scales.Et12NamesWellFormed` | scale/src/scale.rs:168-186 | the 12-tone names are distinct and well formed |
| `Scales.DefaultScaleRoundTrip` | scale/src/scale.rs:29-71 | in the default 12ET scale every number from 12 on is written as a name and read back |
| `Scales.Et53LastName` | scale/src/scale.rs:272-330 | `vC` is the 53rd name of the 53-tone scale and appears nowhere before |
| `Scales.Et53Examples` | scale/src/scale.rs:364-375 | in the 53ET scale `vC0` reads as 105 and 105 is written `vC0`, as the source's tests say |
| `PitchFetchers.Row` | scale/src/pitch_fetcher.rs:22-27 | one entry per scale name, in the scale's order, for the pitch `{name}{octave}` |
| `PitchFetchers.Rows` | scale/src/pitch_fetcher.rs:21-28 | octaves below `n`, one row each |
| `PitchFetchers.Table` | scale/src/pitch_fetcher.rs:17-30 | a `MIN` sentinel at `f32::MIN`, 11 octaves of pitches, and a `MAX` sentinel at `f32::MAX` |
| `PitchFetchers.RowsAt` | scale/src/pitch_fetcher.rs:21-28 | entry `o * len + k` of the rows is the `k`-th name in octave `o` |
| `PitchFetchers.TableAt` | scale/src/pitch_fetcher.rs:17-30 | after the `MIN` sentinel the `k`-th name of octave `o` sits at position `1 + o * len + k` |
| `PitchFetchers.TablePitchNumber` | scale/src/pitch_fetcher.rs:17-30 | position `i` of the table holds the pitch that `pitch_name_to_number` reads as `i - 1 + len` |
| `PitchFetchers.NewPitchFetcher` | scale/src/pitch_fetcher.rs:15-36 | the loops build the fetcher named after the scale with exactly `Table` |
| `PitchFetchers.AddRow` | scale/src/pitch_fetcher.rs:22-27 | the inner loop appends one octave's row |
| `PitchFetchers.LowerBound` | scale/src/pitch_fetcher.rs:39-64 | reference definition: the first position from `from` whose frequency is at least `freq` |
| `PitchFetchers.NearestIndex` | scale/src/pitch_fetcher.rs:39-64 | the position `fetch_pitch` answers lies in the table |
| `PitchFetchers.NearestIsNearest` | scale/src/pitch_fetcher.rs:39-64 | that entry is nearest to the frequency, the exact one when the frequency is in the table, and the higher one on a tie |
| `PitchFetchers.FetchPitch` | scale/src/pitch_fetcher.rs:39-64 | any answer is a pitch of the table; on an increasing table covering the frequency the binary search answers the nearest pitch without panicking |
| `PitchFetchers.ExactIsNearest` | scale/src/pitch_fetcher.rs:45-47 | an entry of exactly the frequency is the answer |
| `PitchFetchers.BracketIsNearest` | scale/src/pitch_fetcher.rs:58-63 | between two neighbours the lower wins only when strictly nearer |
| `PitchFetchers.TableCovers` | scale/src/pitch_fetcher.rs:19-30 | the sentinels make every table cover every finite `f32` |
| `PitchFetchers.Fetchers` | scale/src/pitch_fetcher.rs:76-78 | one fetcher per scale, under the scale's key, named after it and holding its table |
| `PitchFetchers.FetcherCollection` | scale/src/pitch_fetcher.rs:72-83 | a fetcher exactly for each scale of the scale collection |
| `PitchFetchers.NewCollection` | scale/src/pitch_fetcher.rs:72-83 | `Collection::new` builds `FetcherCollection` |
| `PitchFetchers.BuildFetchers` | scale/src/pitch_fetcher.rs:76-78 | the insertion loop builds `Fetchers` |
| `PitchFetchers.FetchFetcher` | scale/src/pitch_fetcher.rs:85-90 | the fetcher exactly when the name is in the collection, else "Tseq scale {name} unknown!" |
| `PitchFetchers.DefaultFetcher` | scale/src/pitch_fetcher.rs:92-94 | the fetcher of "12ET" when there is one; the `unwrap` panics otherwise |
| `PitchFetchers.DefaultIsTwelveTone` | scale/src/pitch_fetcher.rs:72-94 | the default fetcher is the 12-tone one, and a scale has a fetcher exactly when the scale collection has it |
| `TseqPitch.NotesShift` | session/src/talkers/tseq/pitch.rs:28-35 | a count not below the length is "Tseq pitchline notes shift count {k} invalide!" and leaves the line; otherwise the line is rotated left by the count, in place |
| `TseqPitch.BackwardNotesShift` | session/src/talkers/tseq/pitch.rs:37-45 | the same error; otherwise rotated left by the count, then reversed, in place |
| `TseqPitch.RotateInPlace` | session/src/talkers/tseq/pitch.rs:33-42 | the slice's `rotate_left` leaves exactly the rotated line |
| `TseqPitch.ReverseInPlace` | session/src/talkers/tseq/pitch.rs:43 | the slice's `reverse` leaves exactly the reversed line |
| `TseqPitch.RotateLeftProperties` | session/src/talkers/tseq/pitch.rs:33 | a rotation keeps the pitches, and rotating again by the rest of the length restores the line |
| `TseqPitch.BackwardShiftKeepsPitches` | session/src/talkers/tseq/pitch.rs:42-43 | a backward shift keeps the pitches |
| `TseqPitch.BackwardShiftIsRotatedReverse` | session/src/talkers/tseq/pitch.rs:42-43 | a backward shift is the reversed line rotated by the rest of the length |
| `TseqPitch.ScaleRoundTrips` | session/src/talkers/tseq/pitch.rs:54-55 | the name and number conversions of a well-formed scale round-trip |
| `TseqPitch.UsizeAsI64` | session/src/talkers/tseq/pitch.rs:49-54 | `as i64` keeps a number that fits and always gives an `i64` |
| `TseqPitch.I64AsUsize` | session/src/talkers/tseq/pitch.rs:54 | `as usize` keeps a non-negative `i64` and always gives a `usize` |
| `TseqPitch.Shift` | session/src/talkers/tseq/pitch.rs:51 | `fin - init`, exact when both fit an `i64`; the subtraction panics on overflow |
| `TseqPitch.MoveNumber` | session/src/talkers/tseq/pitch.rs:54 | `(n as i64 + dn) as usize` is `n + dn` when that fits; the addition panics on overflow |
| `TseqPitch.TransposeIdOfNumber` | session/src/talkers/tseq/pitch.rs:54-55 | a pitch of number `n` is renamed after `n + dn` (or panics as naming it does) |
| `TseqPitch.TransposeBack` | session/src/talkers/tseq/pitch.rs:54-55 | with round-tripping conversions, transposing by `dn` then `-dn` gives the name back |
| `TseqPitch.ScaleTransposeBack` | session/src/talkers/tseq/pitch.rs:47-58 | in a well-formed scale the pitch numbered `n` is transposed to the name of `n + dn`, and back |
| `TseqPitch.FirstFailure` | session/src/talkers/tseq/pitch.rs:53-56 | every pitch before it is renamed; the pitch at it is not |
| `TseqPitch.TransposedPrefix` | session/src/talkers/tseq/pitch.rs:53-56 | the first `k` pitches renamed, transitions kept, the rest untouched |
| `TseqPitch.TransposeAll` | session/src/talkers/tseq/pitch.rs:53-57 | the loop renames the pitches before the first unknown one and fails exactly when there is one |
| `TseqPitch.PitchsTransposition` | session/src/talkers/tseq/pitch.rs:47-58 | an unknown initial or final pitch is an error before any change; otherwise the loop leaves the line `Transposition` says, or panics as it does |
| `TseqPitch.TransposeLoop` | session/src/talkers/tseq/pitch.rs:53-57 | the loop, in place, computes `TransposeAll` |
| `TseqPitch.Numbers` | session/src/talkers/tseq/pitch.rs:67-72 | one number per pitch, the first unknown pitch stopping the loop |
| `TseqPitch.NumbersOfLine` | session/src/talkers/tseq/pitch.rs:67-72 | the list holds the number of each pitch, in order |
| `TseqPitch.SeqMin` | session/src/talkers/tseq/pitch.rs:63-69 | the `min` fold from `usize::MAX`: a lower bound, one of the numbers when there is one |
| `TseqPitch.SeqMax` | session/src/talkers/tseq/pitch.rs:64-70 | the `max` fold from 0: an upper bound, one of the numbers when there is one |
| `TseqPitch.InvertedNames` | session/src/talkers/tseq/pitch.rs:75-78 | one name per number, that of `total - n` |
| `TseqPitch.InvertedNamesAt` | session/src/talkers/tseq/pitch.rs:75-78 | the name at `i` is that of `total - ns[i]` |
| `TseqPitch.Renamed` | session/src/talkers/tseq/pitch.rs:77 | the line with new ids, transitions kept |
| `TseqPitch.Inversion` | session/src/talkers/tseq/pitch.rs:60-80 | a successful inversion keeps the length of the line and every transition |
| `TseqPitch.InversionOfNumbers` | session/src/talkers/tseq/pitch.rs:73-79 | once the numbers are known, the same |
| `TseqPitch.InversionWithin` | session/src/talkers/tseq/pitch.rs:75-79 | the renaming about `total` cannot fail, only panic |
| `TseqPitch.PitchsInversion` | session/src/talkers/tseq/pitch.rs:60-80 | in place, the outcome and line `Inversion` says, or its panic |
| `TseqPitch.CollectNumbers` | session/src/talkers/tseq/pitch.rs:62-72 | the first loop gives `Numbers` of the line and their minimum and maximum |
| `TseqPitch.RenameInverted` | session/src/talkers/tseq/pitch.rs:75-78 | the second loop renames every pitch after `total - n`, transitions kept |
| `TseqPitch.Complement` | session/src/talkers/tseq/pitch.rs:76 | `total - n` for every number |
| `TseqPitch.Inverted` | session/src/talkers/tseq/pitch.rs:73-76 | `min + max - n` for every number |
| `TseqPitch.InvertedBounds` | session/src/talkers/tseq/pitch.rs:73-76 | inverting keeps the minimum and the maximum |
| `TseqPitch.InvertTwice` | session/src/talkers/tseq/pitch.rs:73-76 | inverting the numbers twice gives them back |
| `TseqPitch.NumbersOfNumberedLine` | session/src/talkers/tseq/pitch.rs:67-72 | a line whose pitches have the numbers `ms` reads as `ms` |
| `TseqPitch.RenamedNumbers` | session/src/talkers/tseq/pitch.rs:75-78 | with round-tripping conversions the renamed line has the numbers `total - n` |
| `TseqPitch.InversionNumbers` | session/src/talkers/tseq/pitch.rs:60-80 | with round-tripping conversions the inverted line has the numbers `min + max - n` |
| `TseqPitch.InversionTwice` | session/src/talkers/tseq/pitch.rs:60-80 | inverting a line twice gives its numbers back |
| `TseqPitch.TranspositionNumbers` | session/src/talkers/tseq/pitch.rs:53-56 | with round-tripping conversions a successful transposition moves the number of every pitch by `dn` |
| `TseqParser.LeadingRun` | session/src/talkers/tseq/parser.rs:91 | the longest prefix of characters of one class |
| `TseqParser.Space0` | session/src/talkers/tseq/parser.rs:108-117 | `space0` leaves a suffix that starts with no blank |
| `TseqParser.IdPieces` | session/src/talkers/tseq/parser.rs:90-92 | alternating `alphanumeric1` and `_` pieces never read past the text |
| `TseqParser.IdPiecesIsIdRun` | session/src/talkers/tseq/parser.rs:90-92 | reading the pieces reads exactly the longest run of letters, digits and `_` |
| `TseqParser.Id` | session/src/talkers/tseq/parser.rs:90-92 | `id` succeeds exactly on a letter, digit or `_`, reads the longest such prefix, and never fails hard |
| `TseqParser.IdOf` | session/src/talkers/tseq/parser.rs:90-92 | an identifier that no identifier character follows is read whole |
| `TseqParser.Comment` | session/src/talkers/tseq/parser.rs:71-73 | `#`, then everything to the first line end, which is consumed; it applies exactly when a line end follows |
| `TseqParser.Punct` | session/src/talkers/tseq/parser.rs:108-113 | a character that blanks may surround, read exactly when it is the first non-blank |
| `TseqParser.PunctOf` | session/src/talkers/tseq/parser.rs:108-113 | that character with blanks around reads whole |
| `TseqParser.Head` | session/src/talkers/tseq/parser.rs:100-110 | the instruction word, blanks, an identifier and a `:`; the value is the identifier |
| `TseqParser.IdColon` | session/src/talkers/tseq/parser.rs:107-108 | an identifier then a `:` that blanks may surround |
| `TseqParser.IdColonOf` | session/src/talkers/tseq/parser.rs:107-108 | such a text reads as its identifier |
| `TseqParser.HeadOf` | session/src/talkers/tseq/parser.rs:100-110 | the head of a definition with the blanks it allows reads as its identifier |
| `TseqParser.End` | session/src/talkers/tseq/parser.rs:116-118 | optional blanks then a line end, read exactly when the first non-blank is a line end |
| `TseqParser.EndOf` | session/src/talkers/tseq/parser.rs:116-118 | blanks and a line end read whole |
| `TseqParser.Slash` | session/src/talkers/tseq/parser.rs:112-114 | a `/` that blanks may surround |
| `TseqParser.Mantissa` | session/src/talkers/tseq/parser.rs:134-165 | the mantissa of a number is never empty, and a leading digit always starts one |
| `TseqParser.Exponent` | session/src/talkers/tseq/parser.rs:134-165 | an exponent, when present, has its mark, sign and digits; none is length 0 |
| `TseqParser.Float` | session/src/talkers/tseq/parser.rs:134-165 | a number text is consumed from the front, and a leading digit never gives a recoverable error |
| `TseqParser.FloatOfDecimal` | session/src/talkers/tseq/parser.rs:134-165 | `a.b`, `a.` or `.b` reads as the value of its digits |
| `TseqParser.FloatUnsigned` | session/src/talkers/tseq/parser.rs:134-165 | an unsigned number reads as its mantissa and exponent |
| `TseqParser.FloatOfInteger` | session/src/talkers/tseq/parser.rs:134-165 | digits alone read as their value |
| `TseqParser.DecimalValueOf` | session/src/talkers/tseq/parser.rs:134-165 | without exponent the value is the whole part plus the fraction over its power of ten |
| `TseqParser.FloatCutExponent` | session/src/talkers/tseq/parser.rs:134-165 | an exponent mark without digits is a hard failure, which `opt` and `many0` cannot recover from |
| `TseqParser.ExponentWithoutDigits` | session/src/talkers/tseq/parser.rs:134-165 | an exponent mark and no digit is no exponent |
| `TseqParser.FloatWithoutExponent` | session/src/talkers/tseq/parser.rs:134-165 | a mantissa followed by a broken exponent is a hard failure |
| `TseqParser.Floats` | session/src/talkers/tseq/parser.rs:134-149 | `many0(terminated(float, space0))` never gives a recoverable error, and passes a hard failure on |
| `TseqParser.Names` | session/src/talkers/tseq/parser.rs:155 | names of letters and digits, each followed by optional blanks; always succeeds |
| `TseqParser.NamesNone` | session/src/talkers/tseq/parser.rs:155 | no name is read where no letter or digit starts the text |
| `TseqParser.NamesCons` | session/src/talkers/tseq/parser.rs:155 | a name followed by blanks, or by a non-name character, is the next name of the list |
| `TseqParser.BeatLine` | session/src/talkers/tseq/parser.rs:121 | a tempo line reads as an identifier and a non-empty run of digits |
| `TseqParser.BeatAsWritten` | session/src/talkers/tseq/parser.rs:120-129 | as written: the tempo's `unwrap` panics exactly when an accepted line's digits exceed the largest `i32` |
| `TseqParser.Beat` | session/src/talkers/tseq/parser.rs:120-129 | corrected: a tempo line gives an identifier and a tempo within `i32`; a larger one is refused |
| `TseqParser.BeatAgrees` | session/src/talkers/tseq/parser.rs:120-129 | wherever the written `beat` does not panic, both agree; where it panics the corrected one refuses the line |
| `TseqParser.BeatLineOf` | session/src/talkers/tseq/parser.rs:121 | `beat <id> : <digits>` with any blanks allowed reads as that identifier and those digits |
| `TseqParser.BeatOf` | session/src/talkers/tseq/parser.rs:207-227 | such a line whose tempo fits an `i32` reads as the identifier and the value of the digits |
| `TseqParser.BeatOverflowPanics` | session/src/talkers/tseq/parser.rs:126 | a tempo of more than `i32::MAX` makes the written `beat` panic on a line the grammar accepts |
| `TseqParser.Pattern` | session/src/talkers/tseq/parser.rs:131-145 | a pattern line gives its identifier, times and duration, consuming text |
| `TseqParser.Velocities` | session/src/talkers/tseq/parser.rs:147-151 | a velocities line gives its identifier and values, consuming text |
| `TseqParser.Notes` | session/src/talkers/tseq/parser.rs:153-158 | a notes line gives its identifier and names of letters and digits; it never fails hard |
| `TseqParser.NotesEmpty` | session/src/talkers/tseq/parser.rs:153-158 | a notes line with an empty list reads as no names |
| `TseqParser.DotId` | session/src/talkers/tseq/parser.rs:163-164 | a `.` and an identifier, or nothing consumed |
| `TseqParser.Mul` | session/src/talkers/tseq/parser.rs:165 | an optional `* multiplier`, nothing consumed when absent; a hard failure of `float` is passed on |
| `TseqParser.Part` | session/src/talkers/tseq/parser.rs:160-177 | a part reads a pattern identifier and optional notes and velocities identifiers (velocities only after notes); it does not apply exactly when no identifier character starts the text |
| `TseqParser.SeqRef` | session/src/talkers/tseq/parser.rs:179-182 | `$` and an identifier, read exactly when an identifier character follows the `$` |
| `TseqParser.SeqRefOf` | session/src/talkers/tseq/parser.rs:179-182 | `$id` with blanks reads as the sequence fragment of `id` |
| `TseqParser.Fragments` | session/src/talkers/tseq/parser.rs:188 | fragments in the text's order until none starts, every one with identifiers |
| `TseqParser.Sequence` | session/src/talkers/tseq/parser.rs:184-199 | a sequence line gives its identifier, optional beat identifier and fragments |
| `TseqParser.BeatRef` | session/src/talkers/tseq/parser.rs:187 | an optional `/ beat` identifier, nothing consumed when absent |
| `TseqBinder.Lookup` | session/src/talkers/tseq/binder.rs:134-139 | `map.get(id)` as a result: the entry exactly when the id is present, else "Tseq {kind} {id} not found!" |
| `TseqBinder.LookupAfterInsert` | session/src/talkers/tseq/binder.rs:128-129 | an entry stored under a key is what a later lookup of that key finds, and lookups of other keys are unchanged |
| `TseqBinder.AccentsOf` | session/src/talkers/tseq/binder.rs:88-91 | the accents of the attack the chord names, or none when it names none or an undefined one |
| `TseqBinder.HarmonicOf` | session/src/talkers/tseq/binder.rs:94-116 | an accent at the harmonic's position replaces its delay and velocity; otherwise the harmonic keeps its own, with no delay and the default velocity when it gives none; the ratio is `num / den` |
| `TseqBinder.ChordHarmonics` | session/src/talkers/tseq/binder.rs:92-117 | one harmonic per harmonic of the chord, in order |
| `TseqBinder.ChordlineHarmonics` | session/src/talkers/tseq/binder.rs:83-127 | one chord per entry of the line, each with its attack's accents; the first undefined chord is "Tseq chord {id} not found!" |
| `TseqBinder.PitchFrequencies` | session/src/talkers/tseq/binder.rs:71-74 | the frequency and transition of each pitch; the first pitch the scale does not know is its error |
| `TseqBinder.PitchlinesAfter` | session/src/talkers/tseq/binder.rs:70-76 | on success every pitch line is stored under its id and earlier entries remain |
| `TseqBinder.ChordlinesAfter` | session/src/talkers/tseq/binder.rs:82-130 | on success every chord line is stored under its id and earlier entries remain |
| `TseqBinder.LastChordlineWins` | session/src/talkers/tseq/binder.rs:128-129 | the last chord line stored under an id is the one a lookup finds |
| `TseqBinder.ChordlinesErrPersists` | session/src/talkers/tseq/binder.rs:120-125 | a failure stops `deserialize`: later chord lines change nothing |
| `TseqBinder.PitchlinesErrPersists` | session/src/talkers/tseq/binder.rs:73 | a failure stops the pitch lines: later lines change nothing |
| `TseqBinder.PitchFrequenciesErrPersists` | session/src/talkers/tseq/binder.rs:73 | the first unknown pitch decides the error of the line |
| `TseqBinder.ChordlineErrPersists` | session/src/talkers/tseq/binder.rs:120-125 | the first undefined chord decides the error of the line |
| `TseqBinder.ChordlineStep` | session/src/talkers/tseq/binder.rs:85-127 | one more chord: an undefined one is the outcome of the whole line; a defined one adds its harmonics |
| `TseqBinder.Binder.constructor` | session/src/talkers/tseq/binder.rs:42-64 | nothing defined; the default chord line is one default chord and the default velocity line one velocity 1 |
| `TseqBinder.Binder.Deserialize` | session/src/talkers/tseq/binder.rs:66-132 | the pitch lines, then (if they all succeed) the chord lines, are stored as `PitchlinesAfter` and `ChordlinesAfter` say; what was stored before a failure stays |
| `TseqBinder.Binder.DeserializePitchlines` | session/src/talkers/tseq/binder.rs:70-76 | the pitch line loop computes `PitchlinesAfter` |
| `TseqBinder.Binder.DeserializeChordlines` | session/src/talkers/tseq/binder.rs:82-130 | the chord line loop computes `ChordlinesAfter` |
| `TseqBinder.Binder.DeserializePitchline` | session/src/talkers/tseq/binder.rs:71-74 | the loop over a line's pitches computes `PitchFrequencies` |
| `TseqBinder.Binder.DeserializeChordline` | session/src/talkers/tseq/binder.rs:83-127 | the loop over a line's chords computes `ChordlineHarmonics` |
| `TseqBinder.Binder.DeserializeChord` | session/src/talkers/tseq/binder.rs:92-117 | the loop over a chord's harmonics computes `ChordHarmonics`: an accent at the harmonic's place overrides its delay and velocity |
| `TseqBinder.Binder.FetchBeat` | session/src/talkers/tseq/binder.rs:134-139 | the beat exactly when defined, else "Tseq beat {id} not found!" |
| `TseqBinder.Binder.FetchDurationline` | session/src/talkers/tseq/binder.rs:140-148 | the line exactly when defined, else "Tseq durations {id} not found!" |
| `TseqBinder.Binder.FetchVelocityline` | session/src/talkers/tseq/binder.rs:149-163 | no id gives the default line; a named line exactly when defined, else "Tseq velocityline {id} not found!" |
| `TseqBinder.Binder.FetchChord` | session/src/talkers/tseq/binder.rs:165-170 | the chord exactly when defined, else "Tseq chord {id} not found!" |
| `TseqBinder.Binder.FetchDeserializedChordline` | session/src/talkers/tseq/binder.rs:172-183 | no id gives the default line of one default chord; a named line exactly when deserialized, else "Tseq chords {id} not found!" |
| `TseqBinder.Binder.FetchHitline` | session/src/talkers/tseq/binder.rs:185-190 | the line exactly when defined, else "Tseq hits {id} not found!" |
| `TseqBinder.Binder.FetchDeserializedPitchline` | session/src/talkers/tseq/binder.rs:191-199 | the line exactly when deserialized, else "Tseq pitchs {id} not found!" |
| `TseqBinder.Binder.FetchSequence` | session/src/talkers/tseq/binder.rs:200-205 | the sequence exactly when defined, else "Tseq seq {id} not found!" |
| `TseqBinder.DefaultsOfNewBinder` | session/src/talkers/tseq/binder.rs:149-183 | a new binder answers a single velocity 1 without transition and a single chord of the default harmonic when no line is named |
| `TseqParsingResult.ParsingResult.FetchBeat` | session/src/talkers/tseq/parsing_result.rs:32-37 | the beat exactly when defined, else "Tseq beat {id} not found!" |
| `TseqParsingResult.ParsingResult.FetchDurationline` | session/src/talkers/tseq/parsing_result.rs:38-46 | the line exactly when defined, else "Tseq durations {id} not found!" |
| `TseqParsingResult.ParsingResult.FetchVelocityline` | session/src/talkers/tseq/parsing_result.rs:47-55 | the line exactly when defined, else "Tseq velocityline {id} not found!" |
| `TseqParsingResult.ParsingResult.FetchChord` | session/src/talkers/tseq/parsing_result.rs:56-61 | the chord exactly when defined, else "Tseq chord {id} not found!" |
| `TseqParsingResult.ParsingResult.FetchChordline` | session/src/talkers/tseq/parsing_result.rs:62-67 | the line exactly when defined, else "Tseq chords {id} not found!" |
| `TseqParsingResult.ParsingResult.FetchHitline` | session/src/talkers/tseq/parsing_result.rs:68-73 | the line exactly when defined, else "Tseq hits {id} not found!" |
| `TseqParsingResult.ParsingResult.FetchPitchline` | session/src/talkers/tseq/parsing_result.rs:74-82 | the line exactly when defined, else "Tseq pitchs {id} not found!" |
| `TseqParsingResult.ParsingResult.FetchSequence` | session/src/talkers/tseq/parsing_result.rs:83-88 | the sequence exactly when defined, else "Tseq seq {id} not found!" |
| `TseqParsingResult.NewParsingResult` | session/src/talkers/tseq/parsing_result.rs:20-31 | the eight tables start empty |
| `TseqSequence.NextIndex` | session/src/talkers/tseq/sequence.rs:211-234 | a cursor steps to the next element, or back to 0 after the last; the result is `(idx + 1) % count` and stays below the count |
| `TseqSequence.Cycle` | session/src/talkers/tseq/sequence.rs:110-235 | after `n` hits each cursor sits at its start plus `n` modulo its own count, and the hitline start has moved on by one hitline length per wrap of the hit cursor |
| `TseqSequence.EnvelopeIndex` | session/src/talkers/tseq/sequence.rs:181-189 | the chord harmonic's envelope when defined, else the velocity line's when defined, else the sequence's; undefined only when all three are |
| `TseqSequence.MergeVelocity` | session/src/talkers/tseq/sequence.rs:153-204 | the level is the product of the chord and line levels, the chord transition wins unless it is `None`, fade-in and fade-out are each the OR of both sides |
| `TseqSequence.Updated` | session/src/talkers/tseq/sequence.rs:152-205 | the pending event a harmonic sets up: the harmonic's delay, the pitch frequency scaled by the harmonic's ratio, the pitch transition and the merged velocity |
| `TseqSequence.Emitted` | session/src/talkers/tseq/sequence.rs:155-174 | a closed event starts at the hit start plus its delay, ends at the hit end, glides from its own frequency and level to the next ones, and fades out also whenever the sequence has an envelope |
| `TseqSequence.LastEvent` | session/src/talkers/tseq/sequence.rs:349-363 | the final event holds its frequency and level, has no transitions and always fades out |
| `TseqSequence.HarmonicFor` | session/src/talkers/tseq/sequence.rs:144-145 | a harmonic slot follows its own chord harmonic, or the chord's last one when the chord has fewer |
| `TseqSequence.Closing` | session/src/talkers/tseq/sequence.rs:144-174 | the event a slot emits is its pending event closed at the frequency and level of the harmonic it follows |
| `TseqSequence.EventsBuilder.constructor` | session/src/talkers/tseq/sequence.rs:56-64 | ticks 0, no harmonic, no pending event and no event list |
| `TseqSequence.EventsBuilder.Grow` | session/src/talkers/tseq/sequence.rs:129-134 | adds empty event lists and blank pending events up to the chord's size, keeping every existing one |
| `TseqSequence.EventsBuilder.Hit` | session/src/talkers/tseq/sequence.rs:120-209 | one hit: each slot of the previous chord appends exactly its closed event, each slot of the new chord gets its new pending event, the others are unchanged, the hit bounds and harmonic count move on; panics exactly when a non-empty chord is followed by an empty one |
| `TseqSequence.EventsBuilder.CloseAndUpdate` | session/src/talkers/tseq/sequence.rs:138-206 | slot `k` of the previous chord appends the event it closes at this hit, computed from its pending event before that slot is replaced; slot `k` of the new chord becomes its next pending event; every other slot and list is kept |
| `TseqSequence.EventsBuilder.CreateLastEvents` | session/src/talkers/tseq/sequence.rs:331-366 | each slot of the last chord with a positive frequency appends its last event, ending at the last hit's end or at the builder's tick when that end is undefined; other lists are unchanged |
| `TseqSequence.LimitedProperties` | session/src/talkers/tseq/sequence.rs:372-377 | clipping keeps the length and every field but the end, ends each event at the earlier of its end and the next start, keeps the last event, and leaves no event running past its successor's start |
| `TseqSequence.LimitedIdempotent` | session/src/talkers/tseq/sequence.rs:372-377 | clipping a clipped list changes nothing |
| `TseqSequence.LimitHarmonicEvents` | session/src/talkers/tseq/sequence.rs:373-377 | the array afterwards is the clipped old list; panics exactly on an empty list (`len() - 1` underflows) |
| `TseqSequence.LimitOverflowingDurations` | session/src/talkers/tseq/sequence.rs:369-379 | completes exactly when no list is empty, and then every list is clipped |
| `TseqSequence.EventReminder.constructor` | session/src/talkers/tseq/sequence.rs:412-418 | not initialized, index 0, last value 0 |
| `TseqAudioEvent.FadeinTick` | session/src/talkers/tseq/audio_event.rs:14-20 | with a fade-in, `LEN` ticks after the start but never past the end; without, the start; always within the event |
| `TseqAudioEvent.FadeoutTick` | session/src/talkers/tseq/audio_event.rs:22-28 | with a fade-out, `LEN` ticks before the end but never before the start; without, the end; always within the event |
| `TseqAudioEvent.FadesOrdered` | session/src/talkers/tseq/audio_event.rs:14-28 | an event at least as long as both fades has start <= fade-in end <= fade-out start <= end |
| `TseqAudioEvent.CoreOf` | session/src/talkers/tseq/audio_event.rs:334-364 | `None` selects a constant at the start value, `Linear` a straight line, every other shape its ramp table, each exactly in its case |
| `TseqAudioEvent.Create` | session/src/talkers/tseq/audio_event.rs:316-369 | the base holds the event's ticks, its two fade ticks and its envelope index; the core is the one the transition selects |
| `TseqAudioEvent.OutLen` | session/src/talkers/tseq/audio_event.rs:93 | never more than the buffer; the remaining ticks when the end is ahead; the whole buffer when the tick is past the end, because the negative difference wraps as a `usize` |
| `TseqAudioEvent.FrequencyEvent` | session/src/talkers/tseq/audio_event.rs:381-390 | the frequency event spans the sequence event's ticks, has no fade and no envelope, and glides along the frequency transition |
| `TseqAudioEvent.VelocityEvent` | session/src/talkers/tseq/audio_event.rs:392-413 | the velocity event is cut at its envelope's end and faded out exactly when a known envelope ends before the event; otherwise it keeps the event's end and fade-out; it never ends later than the event |
| `TseqAudioEvent.CreateFromSequences` | session/src/talkers/tseq/audio_event.rs:373-421 | one frequency list and one velocity list per harmonic, each holding exactly the frequency and velocity event of each sequence event, in order |
| `TseqAudioEvent.HarmonicEvents` | session/src/talkers/tseq/audio_event.rs:377-418 | the inner loop: for each event of one harmonic, its frequency event and its velocity event, in order |
| `TseqMidiSeq.WithChannel` | session/src/talkers/tseq/midi_seq.rs:116-146 | OR-ing a channel into a status byte keeps the message type in the high nibble and puts the channel in the low one |
| `TseqMidiSeq.ControllerType` | session/src/talkers/tseq/midi_seq.rs:85-102 | `MSB`, `LSB`, `vol…`, `bal` and `pan…` name their controllers; any other label must read as a `u8`, else "Midi controller type … unknown!" |
| `TseqMidiSeq.ControllerValue` | session/src/talkers/tseq/midi_seq.rs:104-107 | a value succeeds exactly when it reads as a `u8`, else "Midi controller value … invalid!" |
| `TseqMidiSeq.ApplyAttribute` | session/src/talkers/tseq/midi_seq.rs:84-119 | one attribute succeeds exactly when its label and value both parse |
| `TseqMidiSeq.ConfigOkIff` | session/src/talkers/tseq/midi_seq.rs:84-119 | a channel's attributes set it up exactly when every label and value among them parses |
| `TseqMidiSeq.ConfigControllers` | session/src/talkers/tseq/midi_seq.rs:109-118 | every controller event the attributes add is a controller message on the channel, at tick 0, for neither bank select |
| `TseqMidiSeq.ConfigErrPersists` | session/src/talkers/tseq/midi_seq.rs:99-106 | the first bad attribute returns: later attributes change nothing |
| `TseqMidiSeq.Configure` | session/src/talkers/tseq/midi_seq.rs:80-119 | the attribute loop computes the channel's configuration, or its first error |
| `TseqMidiSeq.NotePair` | session/src/talkers/tseq/midi_seq.rs:141-156 | each sequence event gives a note-on at its start and a note-off at its end, both for the note of its start frequency, with the start and end velocities |
| `TseqMidiSeq.ListNotesShape` | session/src/talkers/tseq/midi_seq.rs:139-158 | two events per sequence event, all note-ons or note-offs on the channel |
| `TseqMidiSeq.HarmonicsNotesOnChannel` | session/src/talkers/tseq/midi_seq.rs:139-158 | every note event of a channel is on that channel |
| `TseqMidiSeq.AppendNotes` | session/src/talkers/tseq/midi_seq.rs:139-158 | the note loops append exactly the channel's note events, harmonic after harmonic |
| `TseqMidiSeq.InsertByTick` | session/src/talkers/tseq/midi_seq.rs:162 | inserting into a tick-sorted list keeps it sorted and adds exactly the one event |
| `TseqMidiSeq.SortByTick` | session/src/talkers/tseq/midi_seq.rs:162 | the sorted note events are ordered by tick and are a permutation of the unsorted ones |
| `TseqMidiSeq.Configs` | session/src/talkers/tseq/midi_seq.rs:84-119 | channel `k` is configured as MIDI channel `k` from its own attributes |
| `TseqMidiSeq.ChannelAcc` | session/src/talkers/tseq/midi_seq.rs:79-159 | a channel that succeeds adds exactly one program change, on its own channel, with its program |
| `TseqMidiSeq.Extend` | session/src/talkers/tseq/midi_seq.rs:121-134 | a configured channel adds its program change after those of the earlier channels |
| `TseqMidiSeq.ChannelsErrPersists` | session/src/talkers/tseq/midi_seq.rs:79-137 | the first failing channel ends the loop: later channels change nothing |
| `TseqMidiSeq.ChannelsPrograms` | session/src/talkers/tseq/midi_seq.rs:131-159 | when every channel succeeds, there is one program change per channel, the `k`th on channel `k` with that channel's program |
| `TseqMidiSeq.NewMidiSeq` | session/src/talkers/tseq/midi_seq.rs:64-170 | more than 16 channels is the "… channels instead of 16 maximum!" error; otherwise the channel loop's first error, or its controller and program lists with the note events sorted by tick and permuted from the unsorted ones |
| `TseqMidiSeq.AddChannels` | session/src/talkers/tseq/midi_seq.rs:78-160 | the channel loop computes the channels' lists in order, or the first failure |
| `TseqMidiSeq.AddChannel` | session/src/talkers/tseq/midi_seq.rs:79-159 | the loop body computes one channel's contribution, or its first failure |
| `TseqMidiSeq.FirstAtOrAfter` | session/src/talkers/tseq/midi_seq.rs:182-184 | the first index from `from` on whose event is at or after the tick: every event before it is earlier |
| `TseqMidiSeq.FirstAtOrAfterUnique` | session/src/talkers/tseq/midi_seq.rs:179-184 | any index that every earlier event is before and whose own event is not is that first index |
| `TseqMidiSeq.AtOffsets` | session/src/talkers/tseq/midi_seq.rs:200-201 | each event goes out at its tick minus the cycle's start, with its own bytes |
| `TseqMidiSeq.Prelude` | session/src/talkers/tseq/midi_seq.rs:187-193 | every controller event, then every program change, each once and in order, at its own tick |
| `TseqMidiSeq.ChannelsAtZero` | session/src/talkers/tseq/midi_seq.rs:114-134 | every controller event and program change the channels give is at tick 0 |
| `TseqMidiSeq.PreludeAtOffsetZero` | session/src/talkers/tseq/midi_seq.rs:73-193 | the set-up events of a sequence `MidiSeq::new` builds all go out at offset 0 of the first cycle that sends anything |
| `TseqMidiSeq.WindowExact` | session/src/talkers/tseq/midi_seq.rs:179-206 | on tick-sorted events, the window between the two cursor positions holds exactly the events whose tick lies in `[tick, tick + len)` |
| `TseqMidiSeq.MakeMidiEvent` | session/src/talkers/tseq/midi_seq.rs:172-211 | one cycle sends the set-up events the first time an event is pending, then the events of the window at their offsets; the reminder is marked and moved only when an event is pending; a saved cursor past the list panics |
| `TseqMidiSeq.Cycle` | session/src/talkers/tseq/midi_seq.rs:173-209 | the cycle's body on values: what goes out, whether an event is pending, and where the cursor goes |
| `TseqMidiSeq.Reposition` | session/src/talkers/tseq/midi_seq.rs:179-184 | the two cursor loops land on the first event at or after the tick, wherever the cursor started |
| `TseqMidiSeq.Emit` | session/src/talkers/tseq/midi_seq.rs:196-206 | the emitting loop sends every event from the cursor on that is before the window's end, and stops at the first one that is not |
| `Channels.LayoutIndex` | session/src/channel.rs:79-87 | a known layout gives the position of its first occurrence in the table; an unknown one gives 1, and the result always indexes the table |
| `Channels.LayoutChannelsNames` | session/src/channel.rs:93-104 | the definition at the known layout's index, or Left and Right for an unknown layout |
| `Channels.FirstWithChannels` | session/src/channel.rs:110-125 | the first definition with that many channel names, every earlier one having a different count; none when no definition has it |
| `Channels.Index` | session/src/channel.rs:79-87 | a known layout's own position in the table; 1 (stereo) for an unknown one |
| `Channels.FromIndex` | session/src/channel.rs:89-91 | the layout at that index, and a panic exactly past the table's 30 entries |
| `Channels.ChannelsNames` | session/src/channel.rs:93-104 | the definition aligned with the layout's position, or Left and Right for an unknown layout |
| `Channels.ChannelCount` | session/src/channel.rs:106-108 | the number of channel names of the layout |
| `Channels.FindChannels` | session/src/channel.rs:111-125 | the search loop finds the first definition with that many channels, or none |
| `Channels.FromChannels` | session/src/channel.rs:110-118 | the first layout with that many channels, else the default layout |
| `Channels.ChannelsNamesFromChannels` | session/src/channel.rs:120-128 | the first definition with that many channels, else Left and Right |
| `Channels.FirstWithChannelsAt` | session/src/channel.rs:110-115 | a definition with the count and no earlier one with it is the one found |
| `Channels.LayoutsDistinct` | session/src/channel.rs:5-36 | the thirty layout names are pairwise different |
| `Channels.IndexFromIndex` | session/src/channel.rs:5-73 | the name and definition tables are aligned (30 each), `from_index` succeeds below 30, and `index(from_index(i)) == i` |
| `Channels.StereoNames` | session/src/channel.rs:79-104 | the default layout is stereo at index 1, with channels FL and FR |
| `Channels.UnknownLayout` | session/src/channel.rs:79-108 | an unknown layout is stereo for `index` and `channels`, but named Left and Right rather than FL and FR |
| `Channels.FromChannelsChannels` | session/src/channel.rs:110-128 | when some layout has the count, `from_channels` gives one whose names are `channels_names_from_channels`, with that many names; otherwise stereo and Left/Right |
| `OutputPresenters.OutputPresenter.constructor` | src/output_presenter.rs:24-49 | the presenter holds the output's id, codec, sample rate, layout and path as given |
| `OutputPresenters.OutputPresenter.SetCodecName` | src/output_presenter.rs:61-63 | sets the codec and leaves the other settings unchanged |
| `OutputPresenters.OutputPresenter.SetSampleRate` | src/output_presenter.rs:81-83 | sets the sample rate and leaves the other settings unchanged |
| `OutputPresenters.OutputPresenter.SetChannelLayout` | src/output_presenter.rs:101-103 | sets the layout and leaves the other settings unchanged |
| `OutputPresenters.OutputPresenter.SetFilePath` | src/output_presenter.rs:113-115 | sets the path and leaves the other settings unchanged |
| `OutputPresenters.OutputPresenter.CodecIndex` | src/output_presenter.rs:65-75 | a known codec's own menu position; 0 for an unknown one |
| `OutputPresenters.OutputPresenter.SampleRateIndex` | src/output_presenter.rs:85-95 | the menu position of the rate's decimal text; 0 when the menu does not hold it |
| `OutputPresenters.CodecIndexOf` | src/output_presenter.rs:65-75 | a known codec's first menu position, 0 for an unknown one; always a position of the menu |
| `OutputPresenters.SampleRateIndexOf` | src/output_presenter.rs:85-95 | the menu position holding the rate's decimal text, 0 when the menu does not hold it; always a position of the menu |
| `OutputPresenters.OutputPresenter.ChannelLayoutIndex` | src/output_presenter.rs:105-107 | the layout's position in the layout table |
| `OutputPresenters.CodecIndexOfName` | src/output_presenter.rs:65-75 | the three codec tables are parallel (6 each) and every codec name reads back as its own position |
| `OutputPresenters.DefaultIndices` | src/output_presenter.rs:5-11 | the default codec sits at position 0 and the default rate 44100 at position 5 |
| `AudioFileOutputs.ParseBackup` | session/src/audiofile_output.rs:44-57 | a configuration reads exactly when it has four `\|`-separated parts and the second is a `usize`; the other parts are taken as they are; a wrong count is "AudioFileOutput configuration … need 4 parameters!" |
| `AudioFileOutputs.BackupReadsBack` | session/src/audiofile_output.rs:44-57 | a backup line reads back as the settings that wrote it, when no text holds a `\|` and the rate fits a `usize` |
| `AudioFileOutputs.BarInPathIsLost` | session/src/audiofile_output.rs:44-57 | a file path holding a `\|` makes the backup line unreadable |
| `AudioFileOutputs.AudioFileOutput.constructor` | session/src/audiofile_output.rs:28-38 | the output holds its four settings and input rate as given, and no writer |
| `AudioFileOutputs.AudioFileOutput.Backup` | session/src/audiofile_output.rs:139-142 | the kind "output", the model "file" and the `codec\|rate\|layout\|path` line of the saved settings |
| `AudioFileOutputs.AudioFileOutput.ChannelCount` | session/src/audiofile_output.rs:81-86 | the open writer's channel count, or the layout's when none is open |
| `AudioFileOutputs.AudioFileOutput.Open` | session/src/audiofile_output.rs:96-111 | an encoder failure is returned with nothing changed; an encoder with another channel count switches the layout to the first with its count; the header's outcome is returned and the writer is installed only when it succeeds |
| `AudioFileOutputs.AudioFileOutput.Write` | session/src/audiofile_output.rs:113-121 | "AudioFileOutput not open" without a writer, else the encoder's outcome |
| `AudioFileOutputs.AudioFileOutput.Close` | session/src/audiofile_output.rs:131-137 | "AudioFileOutput not open" without a writer, else the encoder's outcome; no writer afterwards in either case; the settings are unchanged |
| `AudioFileOutputs.FromBackup` | session/src/audiofile_output.rs:44-57 | a new unopened output with the given input rate and the parsed settings exactly when the line parses, else its parsing error |
| `MixerPresenters.IdIndex` | src/mixer_presenter.rs:51-56 | the position of the first output with the id, every earlier one having another id; none when no output has it |
| `MixerPresenters.CountId` | src/mixer_presenter.rs:49-57 | the number of outputs with the id is at most the number of outputs, and positive exactly when some output has the id |
| `MixerPresenters.CountIdConcat` | src/mixer_presenter.rs:49-57 | the number of outputs with an id adds up over a concatenation |
| `MixerPresenters.WithoutFirstCount` | src/mixer_presenter.rs:49-57 | removal drops exactly one output with the id when there is one, shortening the list by one, and changes nothing otherwise |
| `MixerPresenters.MixerPresenter.constructor` | src/mixer_presenter.rs:14-27 | the presenter has the mixer's id and name and one fresh output presenter per mixer output, in order, each showing that output |
| `MixerPresenters.MixerPresenter.AddOutput` | src/mixer_presenter.rs:45-47 | the output is appended after the existing ones |
| `MixerPresenters.MixerPresenter.RemoveOutput` | src/mixer_presenter.rs:49-57 | the list without its first output with the id, the others in order |
| `Mixers.KeptOutputs` | session/src/mixer.rs:64-73 | exactly the outputs of another model are kept, never more than there were |
| `Mixers.KeptOutputsSnoc` | session/src/mixer.rs:67-71 | the loop keeps the outputs in order: one more output is appended exactly when its model differs |
| `Mixers.KeptOutputsIdempotent` | session/src/mixer.rs:64-73 | removing a model's outputs twice is removing them once |
| `Mixers.FirstError` | session/src/mixer.rs:76-101 | none exactly when every output succeeds; otherwise the failure of the first output that fails, all before it having succeeded |
| `Mixers.FirstErrorAt` | session/src/mixer.rs:76-101 | a failing output with only successes before it gives the first error |
| `Mixers.EachOutput` | session/src/mixer.rs:76-101 | the loop over the outputs (as in `open`, `pause`, `run` and `close`) fails exactly when some output fails, with the first failure |
| `Mixers.MixSample` | session/src/mixer.rs:140-147 | a mixed sample lies within the audio range, and equals the sample times the volume whenever that product already does |
| `Mixers.Mixed` | session/src/mixer.rs:137-149 | a mixed channel keeps its length, has its first `ln` samples within the audio range and the rest unchanged |
| `Mixers.MixChannel` | session/src/mixer.rs:140-149 | the inner loop mixes the first `ln` samples in place; it panics exactly when `ln` runs past the channel or the volume buffer |
| `Mixers.Mixer.constructor` | session/src/mixer.rs:27-39 | the given tracks and outputs, empty when absent; tick 0; not productive |
| `Mixers.Mixer.AddTrack` | session/src/mixer.rs:52-54 | the track is appended; nothing else changes |
| `Mixers.Mixer.AddOutput` | session/src/mixer.rs:60-62 | the output is appended; nothing else changes |
| `Mixers.Mixer.RemoveOutput` | session/src/mixer.rs:64-73 | the outputs become those of another model, in order; nothing else changes |
| `Mixers.Mixer.Open` | session/src/mixer.rs:75-82 | the first output failure is returned with the tick and the switch unchanged; otherwise the tick restarts at 0 and the mixer becomes productive |
| `Mixers.Mixer.Close` | session/src/mixer.rs:98-104 | the first output failure is returned with the switch unchanged; otherwise the mixer stops being productive |
| `Mixers.ClampChannels` | session/src/mixer.rs:137-150 | every channel in turn has its first `ln` samples mixed; it completes exactly when there is no channel or `ln` fits the volume buffer and every channel |
| `GraphPresenters.SessionPresenter.constructor` | src/session_presenter.rs:87-89 | no edit and no notification handed over yet |
| `GraphPresenters.SessionPresenter.ModifyBand` | src/session_presenter.rs:168-171 | the edit is recorded after the earlier ones; the `State` or error notification the session's answer gives is not recorded |
| `GraphPresenters.SessionPresenter.Notify` | src/session_presenter.rs:87-89 | the notification is recorded after the earlier ones; the edits are unchanged |
| `GraphPresenters.SessionPresenter.NotifyEach` | src/session_presenter.rs:87-89 | the notifications are recorded in order; the edits are unchanged |
| `GraphPresenters.SessionPresenter.NotifyError` | src/session_presenter.rs:113-115 | the error's text is recorded as an `Error` notification |
| `GraphPresenters.Toggled` | src/graph_presenter.rs:127-134 | the talker is in the new set exactly when it was not in the old, every other talker is as before, and the size moves by one |
| `GraphPresenters.ToggledTwice` | src/graph_presenter.rs:127-134 | toggling a talker twice restores the set |
| `GraphPresenters.TalkerSelection` | src/graph_presenter.rs:104-125 | with ctrl held or fewer than two talkers selected the click toggles the talker; otherwise it becomes the only selected talker |
| `GraphPresenters.ControlClickTwice` | src/graph_presenter.rs:107-114 | two ctrl-clicks on the same talker restore the selection |
| `GraphPresenters.PlainClickTwice` | src/graph_presenter.rs:104-125 | a plain click among several selected talkers leaves it alone selected, and a second plain click unselects it |
| `GraphPresenters.UnselectAll` | src/graph_presenter.rs:116-119 | exactly one `TalkerUnselected` per previously selected talker, each once |
| `GraphPresenters.HumClick` | src/graph_presenter.rs:204-281 | a click on the selected hum unselects it, on another hum moves the selection; with no hum selected, a voice of the same talker selects the hum, a voice of another talker is set on the hum (one `SetEarHumVoice` edit), and the voice and add-in hum are cleared |
| `GraphPresenters.HumAddInClick` | src/graph_presenter.rs:283-361 | the same as the hum click with the two hum selections exchanged, the other talker's voice being added to the hum (`AddVoiceToEarHum`) |
| `GraphPresenters.VoiceBlockNotes` | src/graph_presenter.rs:378-424 | one ear block of `select_voice` as written: an edit with `TalkerChanged` for another talker's hum, the voice selected for the same talker's hum or no hum, and the hum announced as unselected |
| `GraphPresenters.VoiceClick` | src/graph_presenter.rs:363-429 | as written: a click on the selected voice unselects it, on another voice moves the selection; with no voice selected both hum blocks run, the selected hum getting a `SetEarHumVoice` edit from another talker's voice, and both hum selections end cleared |
| `GraphPresenters.VoiceClickCorrected` | src/graph_presenter.rs:363-429 | as intended: the selected hum, else the selected add-in hum, else nothing decides the click, with one edit for another talker's voice |
| `GraphPresenters.SelectionNotesConcat` | src/graph_presenter.rs:104-429 | the selection notifications of two lists put together are those of each |
| `GraphPresenters.HumReclickAnnounces` | src/graph_presenter.rs:214-232 | a click with a hum selected announces exactly the change it makes, each notification once |
| `GraphPresenters.HumFirstClickSelects` | src/graph_presenter.rs:233-275 | a first hum click with no voice of another talker selected announces exactly the change, each notification once |
| `GraphPresenters.HumFirstClickConnects` | src/graph_presenter.rs:233-275 | a first hum click with another talker's voice selected announces exactly the change, each notification once |
| `GraphPresenters.HumClickAnnounces` | src/graph_presenter.rs:204-281 | a hum click announces exactly the change it makes, each notification once; `SelectionChanged` comes last exactly when a hum selection changed; `TalkerChanged` exactly when it edits the band; no hum is left selected both ways |
| `GraphPresenters.HumAddInReclickAnnounces` | src/graph_presenter.rs:293-313 | a click with an add-in hum selected announces exactly the change, each notification once |
| `GraphPresenters.HumAddInFirstClickSelects` | src/graph_presenter.rs:314-355 | a first add-in click with no voice of another talker selected announces exactly the change, each notification once |
| `GraphPresenters.HumAddInFirstClickConnects` | src/graph_presenter.rs:314-355 | a first add-in click with another talker's voice selected announces exactly the change, each notification once |
| `GraphPresenters.HumAddInClickAnnounces` | src/graph_presenter.rs:283-361 | the add-in counterpart of `HumClickAnnounces` |
| `GraphPresenters.VoiceReclickAnnounces` | src/graph_presenter.rs:370-379 | a click with a voice selected announces exactly the change, each notification once |
| `GraphPresenters.VoiceFirstClickAnnounces` | src/graph_presenter.rs:380-427 | a corrected first voice click announces exactly the change, each notification once |
| `GraphPresenters.VoiceClickCorrectedAnnounces` | src/graph_presenter.rs:363-429 | the corrected voice click announces exactly the change, each notification once, `SelectionChanged` exactly when the voice selection changed, `TalkerChanged` exactly when it edits, and keeps a hum from being selected both ways |
| `GraphPresenters.VoiceClickRepeats` | src/graph_presenter.rs:380-427 | as written, a voice click with nothing selected announces the voice and the change of selection twice; the corrected click once |
| `GraphPresenters.VoiceClickMisannouncesAddIn` | src/graph_presenter.rs:405-424 | as written, a click with another talker's add-in hum selected adds the voice, leaves the voice selected and announces the add-in hum as an unselected hum; the corrected click leaves nothing selected and announces `EarAddInUnselected` |
| `GraphPresenters.ShowVoice` | src/graph_presenter.rs:431-440 | a `TalkSelected` for the talker's port, then `SelectionChanged`, and no hum or voice selection announced |
| `GraphPresenters.ShowVoiceKeepsSelection` | src/graph_presenter.rs:431-440 | showing a voice announces the change of no selection, whatever is selected |
| `GraphPresenters.GraphPresenter.constructor` | src/graph_presenter.rs:30-43 | nothing selected, minimized or added, no key pressed |
| `GraphPresenters.GraphPresenter.IsTalkerSelected` | src/graph_presenter.rs:49-51 | the view's query: true exactly when the talker is selected; `SelectTalker` states its effect through it |
| `GraphPresenters.GraphPresenter.IsTalkerMinimized` | src/graph_presenter.rs:53-55 | the view's query: true exactly when the talker is minimized; `MinimizeTalker` states its effect through it |
| `GraphPresenters.GraphPresenter.IsVoiceSelected` | src/graph_presenter.rs:57-62 | true exactly when that port of that talker is the selected voice |
| `GraphPresenters.GraphPresenter.IsEarHumSelected` | src/graph_presenter.rs:64-77 | true exactly when that hum is the selected hum |
| `GraphPresenters.GraphPresenter.IsEarHumAddInSelected` | src/graph_presenter.rs:79-92 | true exactly when that hum is the selected add-in hum |
| `GraphPresenters.GraphPresenter.SetControlKeyPressed` | src/graph_presenter.rs:94-96 | sets the ctrl flag; nothing else changes |
| `GraphPresenters.GraphPresenter.SetShiftKeyPressed` | src/graph_presenter.rs:97-99 | sets the shift flag; nothing else changes |
| `GraphPresenters.GraphPresenter.SetAltKeyPressed` | src/graph_presenter.rs:100-102 | sets the alt flag; nothing else changes |
| `GraphPresenters.GraphPresenter.SelectTalker` | src/graph_presenter.rs:104-125 | the selection becomes `TalkerSelection`; a toggle announces the talker unselected or selected; a replacement announces every old talker unselected, then the talker selected; `SelectionChanged` last; nothing else changes; afterwards the talker is selected unless a toggle unselected it, and after a replacement it is the only one selected |
| `GraphPresenters.GraphPresenter.MinimizeTalker` | src/graph_presenter.rs:127-134 | the talker is minimized afterwards exactly when it was not before, every other talker keeps its state, and `TalkerChanged` is returned |
| `GraphPresenters.GraphPresenter.NotifyTalkerChanged` | src/graph_presenter.rs:186-190 | one `TalkerChanged` is handed to the session presenter and no edit |
| `GraphPresenters.GraphPresenter.SetTalkerName` | src/graph_presenter.rs:136-146 | renames the talker, keeping its id, and returns `TalkerRenamed` then `TalkerChanged` |
| `GraphPresenters.GraphPresenter.SetTalkerData` | src/graph_presenter.rs:148-162 | hands one `SetTalkerData` edit over and returns `TalkerChanged` unless on the fly |
| `GraphPresenters.GraphPresenter.SetTalkerEarTalkValue` | src/graph_presenter.rs:164-184 | hands one `SetEarTalkValue` edit over and returns `TalkerChanged` unless on the fly |
| `GraphPresenters.GraphPresenter.SelectEarHum` | src/graph_presenter.rs:204-281 | the selection, notifications and edits are those of `HumClick`; no hum ends selected both ways; nothing else changes |
| `GraphPresenters.GraphPresenter.ReclickHum` | src/graph_presenter.rs:214-232 | the branch with a hum selected does what `HumClick` says, with no edit |
| `GraphPresenters.GraphPresenter.FirstClickHum` | src/graph_presenter.rs:233-275 | the branch with no hum selected does what `HumClick` says |
| `GraphPresenters.GraphPresenter.SelectEarHumAddIn` | src/graph_presenter.rs:283-361 | the selection, notifications and edits are those of `HumAddInClick`; nothing else changes |
| `GraphPresenters.GraphPresenter.ReclickHumAddIn` | src/graph_presenter.rs:293-313 | the branch with an add-in hum selected does what `HumAddInClick` says, with no edit |
| `GraphPresenters.GraphPresenter.FirstClickHumAddIn` | src/graph_presenter.rs:314-355 | the branch with no add-in hum selected does what `HumAddInClick` says |
| `GraphPresenters.GraphPresenter.SelectVoice` | src/graph_presenter.rs:363-429 | as written: the selection, notifications and edits are those of `VoiceClick` |
| `GraphPresenters.GraphPresenter.ReclickVoice` | src/graph_presenter.rs:370-379 | the branch with a voice selected, the same in the written and the corrected click |
| `GraphPresenters.GraphPresenter.VoiceFromHum` | src/graph_presenter.rs:381-398 | the first ear block: clears the hum, edits for another talker's hum, selects the voice otherwise |
| `GraphPresenters.GraphPresenter.VoiceFromAddIn` | src/graph_presenter.rs:405-427 | the second ear block: clears the add-in hum, adds the voice for another talker's hum, selects the voice otherwise |
| `GraphPresenters.GraphPresenter.SelectVoiceCorrected` | src/graph_presenter.rs:363-429 | as intended: the selection, notifications and edits are those of `VoiceClickCorrected` |
| `GraphPresenters.GraphPresenter.AddEarTalk` | src/graph_presenter.rs:442-467 | with a voice selected, hands an `AddVoiceToEarHum` edit over and returns `TalkerChanged`; otherwise changes and returns nothing |
| `GraphPresenters.GraphPresenter.SupEarTalk` | src/graph_presenter.rs:469-484 | hands one `SupEarTalk` edit over and returns `TalkerChanged` |
| `GraphPresenters.GraphPresenter.AddEarSet` | src/graph_presenter.rs:486-517 | with a voice selected, a new set holding the voice in hum 0; otherwise a new set holding the value 0 in hum 0; returns `TalkerChanged` |
| `GraphPresenters.GraphPresenter.SupEarSet` | src/graph_presenter.rs:519-530 | hands one `SupEarSet` edit over and returns `TalkerChanged` |
| `GraphPresenters.GraphPresenter.AddNewTalker` | src/graph_presenter.rs:532-562 | announces the selected voice and hum as unselected without clearing them, selects port 0 of the previously added talker, records the new talker, and ends with `TalkerChanged` |
| `GraphPresenters.GraphPresenter.SupTalker` | src/graph_presenter.rs:568-574 | hands one `SupTalker` edit over and returns `TalkerChanged` |
| `GraphControlers.GraphControler.constructor` | src/graph_controler.rs:26-37 | no talker selected, no key pressed, attached to the given session presenter |
| `GraphControlers.GraphControler.SetControlKeyPressed` | src/graph_controler.rs:43-45 | sets the ctrl flag; the other keys and the selection are unchanged |
| `GraphControlers.GraphControler.SetShiftKeyPressed` | src/graph_controler.rs:46-48 | sets the shift flag; the other keys and the selection are unchanged |
| `GraphControlers.GraphControler.SetAltKeyPressed` | src/graph_controler.rs:49-51 | sets the alt flag; the other keys and the selection are unchanged |
| `GraphControlers.GraphControler.SetSelectedTalker` | src/graph_controler.rs:53-80 | the selection follows the same rule as the graph presenter's (`TalkerSelection`); a toggle sends one `TalkerUnselected` or `TalkerSelected`; a replacement sends one `TalkerUnselected` per old talker, then `TalkerSelected`; earlier notifications are kept |
| `GraphControlers.GraphControler.SetTalkerName` | src/graph_controler.rs:82-88 | renames the talker, keeping its id, and sends `TalkerRenamed` |
| `GraphControlers.GraphControler.SetTalkerValue` | src/graph_controler.rs:90-124 | a success sends `TalkerChanged` unless on the fly; a failure sends its error |
| `GraphControlers.GraphControler.AddTalkerEarValue` | src/graph_controler.rs:126-135 | a success always sends `TalkerChanged`; a failure sends its error |
| `PluginsManagers.BuiltinHandlers` | session/src/plugins_manager.rs:129-133 | exactly the three built-in models are registered, each keyed by its own model, as internal oscillators |
| `PluginsManagers.MakeInternalTalker` | session/src/plugins_manager.rs:167-179 | the three built-in models make their own talker (the progression with 110, 0, 1, 1); any other model is "Unknown talker MODEL" |
| `PluginsManagers.CategoriesAdd` | session/src/plugins_manager.rs:199-210 | registering one more model adds exactly its category |
| `PluginsManagers.EntriesAdd` | session/src/plugins_manager.rs:199-210 | one more model adds its `(label, model)` pair to its own category and to no other |
| `PluginsManagers.EachHandlerOnce` | session/src/plugins_manager.rs:195-223 | in the catalogue every registered model appears exactly once, as its label and itself, in its category's group, and in no other group |
| `PluginsManagers.PluginsManager.constructor` | session/src/plugins_manager.rs:77-147 | the register holds the LV2 plugins found, keyed by URI, then the built-ins, which replace an LV2 entry with the same key |
| `PluginsManagers.PluginsManager.MakeTalker` | session/src/plugins_manager.rs:181-193 | an unregistered model is "Unknown talker URI"; a made talker is of the handler's model; LV2 handlers make LV2 talkers exactly when instantiation succeeds; internal ones exactly when the model is a built-in |
| `PluginsManagers.PluginsManager.GetCategorizedTalkersLabelModel` | session/src/plugins_manager.rs:195-223 | one group per category of a registered model, in strictly increasing order of category, each holding exactly its models' `(label, model)` pairs, sorted and without repeats |
| `Sorting.SortBy` | session/src/plugins_manager.rs:218-221 | `sort` gives its elements in non-decreasing order of the string ordering, as a permutation of the input |
| `PluginsManagers.BuiltinsAreMade` | session/src/plugins_manager.rs:167-193 | whatever LV2 plugins were found, the three built-in models make their talkers |
| `PluginsManagers.InternalHandlersMake` | session/src/plugins_manager.rs:167-193 | in a register the constructor built, an internal handler always makes its talker, so "Unknown talker MODEL" cannot occur |
| `PluginsManagers.GroupByCategory` | session/src/plugins_manager.rs:199-210 | the first loop maps exactly the registered categories each to the distinct pairs of its models |
| `PluginsManagers.MakeGroup` | session/src/plugins_manager.rs:213-218 | a category's pairs copied and sorted: a correct group and a permutation of the pairs |
| `PluginsManagers.ListGroups` | session/src/plugins_manager.rs:212-219 | the second loop lists every category once, each with a correct group |
| `PluginsManagers.CatalogueOfSorted` | session/src/plugins_manager.rs:220 | sorting the list of groups keeps each group and orders the distinct categories strictly |
| `TalkerHandlers.WithMultiCategories` | talker/src/talker_handler.rs:10-16 | the categories, model and label are kept as given |
| `TalkerHandlers.Builtin` | talker/src/talker_handler.rs:17-21 | a built-in is in its one category, keeps its model, and its label is the given one behind a `G ` mark |
| `Dsp.Clip` | talker/src/dsp.rs:5-11 | a sample within the audio bounds is kept, one below or above becomes the nearer bound; the result is always within the bounds |
| `Dsp.Clipped` | talker/src/dsp.rs:3-13 | the buffer keeps its length, the samples in the range end within the bounds, the others and those already within bounds are unchanged |
| `Dsp.ClippedIdempotent` | talker/src/dsp.rs:3-13 | clipping twice is clipping once |
| `Dsp.AudioizeBufferByClipping` | talker/src/dsp.rs:3-13 | the buffer ends clipped over the range; an end past the buffer panics exactly when the range is not empty, with the samples before the buffer's end already clipped |
| `Util.FilenameWithExtension` | src/util.rs:25-28 | the result ends with `.` and the extension; its stem is the name up to its last `.`, or the whole name when it has none |
| `Util.FilenameWithExtensionIdempotent` | src/util.rs:25-28 | giving a name the same dot-free extension twice gives it once |
| `PluginEars.Talk.constructor` | plugin/src/ear.rs:289-294 | a talk of the given port type and tag on the given talker and port |
| `PluginEars.NewTalkValue` | plugin/src/ear.rs:277-283 | a fresh talk of the given type, tagged `I`, on port 0 of a new constant talker of that type |
| `PluginEars.NewTalkVoice` | plugin/src/ear.rs:285-296 | a fresh talk tagged `I` on the talker's port, of that voice's type |
| `PluginEars.Talks.constructor` | plugin/src/ear.rs:215-221 | no talk yet, the given type, the tag defaulting to `I` |
| `PluginEars.Talks.AddTalkValue` | plugin/src/ear.rs:67-70 | always succeeds and appends one fresh constant talk of the list's type, the earlier talks kept |
| `PluginEars.Talks.AddTalkVoice` | plugin/src/ear.rs:71-83 | appends a talk on the voice exactly when the voice has the list's type; otherwise the list is unchanged and the error names the talker, the port and the list's tag |
| `PluginEars.SetTalkValue` | plugin/src/ear.rs:239-256 | always succeeds; the talk listens to port 0 of a new constant talker of its own type, its type and tag unchanged |
| `PluginEars.SetTalkVoice` | plugin/src/ear.rs:257-275 | the talk moves to the voice exactly when the voice has the talk's type; otherwise it is unchanged and the error names both talkers, the port and the tag |
| `PluginEars.ListenTalk` | plugin/src/ear.rs:298-310 | a missing voice panics, and only then; a voice whose last chunk is at the tick answers with its length, no talker talks and no voice changes; otherwise the talker talks once and its voice is left at the tick with the length returned |
| `PluginEars.ListenAllCached` | plugin/src/ear.rs:115-126 | when every voice of a list is already at the tick, no talker talks, no voice changes and the list answers with the last voice's length, or the requested length when empty |
| `PluginEars.ListenAllMissingVoice` | plugin/src/ear.rs:115-126 | a voice missing anywhere in the list makes the listening panic, since listening never adds or removes a voice |
| `PluginEars.ListenAllTalksOnce` | plugin/src/ear.rs:115-126 | across a list, each voice is computed at most once per tick: the voices whose talker talks are distinct and were not at the tick before, every voice of the list ends at the tick, and no other voice changes |
| `PluginEars.ListenAgain` | plugin/src/ear.rs:115-126 | listening to a list again at the same tick asks no talker and changes no voice |
| `PluginEars.Listen` | plugin/src/ear.rs:115-127 | equals `ListenTalk` for a single talk and `ListenAll` for a list, the length and the voices each talk leaves passed on to the next |
| `PluginEars.EarSlots` | plugin/src/ear.rs:322-338 | one slot list per ear, in ear order: one slot for a single talk, one per talk for a list |
| `PluginEars.FlattenPrefix` | plugin/src/ear.rs:322-338 | the slots of the first ears are a prefix of all the slots |
| `PluginEars.FlattenSingleTalks` | plugin/src/ear.rs:322-330 | when every ear is a single talk, slot `i` is ear `i`'s talk |
| `PluginEars.VisitEarFlattenIndex` | plugin/src/ear.rs:312-341 | the talk in slot `index` of the flattened ears, on which the visitor runs, when there is one, else "Ear {index} not found!"; the visitor's own result is not modelled |
| `Lv2Atom.PadSize` | lv2/lv2-sys/src/atom.rs:5-7 | the smallest multiple of 8 at or above the size, below 2^32; the `u32` addition overflows, a panic, exactly for the last seven sizes |
| `Lv2Atom.PadSizeIdempotent` | lv2/lv2-sys/src/atom.rs:5-7 | padding a padded size changes nothing |
| `Lv2Atom.SequenceBegin` | lv2/lv2-sys/src/atom.rs:10-17 | the first event is at the end exactly when the atom size holds no more than the 8-byte body struct, and it is 8-byte aligned when the body is |
| `Lv2Atom.SequenceIsEndMonotone` | lv2/lv2-sys/src/atom.rs:15-17 | once `is_end` holds for an offset it holds for every later offset and every smaller atom size |
| `Lv2Atom.SequenceNext` | lv2/lv2-sys/src/atom.rs:20-24 | the next event lies past the 16-byte event header and the event's body, by less than 8 bytes of padding, and a multiple of 8 bytes on; it panics exactly when padding the body size overflows |
| `Lv2Atom.SequenceIterEnds` | lv2/lv2-sys/src/atom.rs:15-24 | `is_end` stays true once reached, and each step before it moves at least one 16-byte event header towards the end, so iterating a sequence ends |
| `Lv2Atom.SequenceNextAligned` | lv2/lv2-sys/src/atom.rs:20-24 | stepping from an 8-byte aligned event lands on an 8-byte aligned event |
| `Lv2Midi.HighNibble` | lv2/lv2-sys/src/midi.rs:12-19 | `b & 0xF0`: the multiple of 16 at or just below the byte |
| `Lv2Midi.VoiceAndSystemDisjoint` | lv2/lv2-sys/src/midi.rs:4-14 | no byte is both a voice and a system message, and data bytes below 0x80 are neither |
| `Lv2Midi.MessageType` | lv2/lv2-sys/src/midi.rs:17-25 | a voice message gives one of the seven channel message types, its high nibble; a system message gives itself; every other byte, and only those, `MSG_INVALID` |
| `Lv2Midi.VoiceTypeAndChannel` | lv2/lv2-sys/src/midi.rs:17-25 | a channel status byte is its message type plus its channel |
| `Lv2Midi.IsVoiceMessage` | lv2/lv2-sys/src/midi.rs:4-6 | a byte is a voice message exactly when its high nibble is one of the seven channel message types (note off to bender) |
| `Lv2Midi.IsSystemMessage` | lv2/lv2-sys/src/midi.rs:9-14 | a byte is a system message exactly when it is one of the eleven defined system status bytes; 0xF4, 0xF5, 0xF7, 0xF9 and 0xFD are not |
| `MidiEvents.ChannelFromRaw` | lv2/src/midi/event.rs:28-31 | the channel is the low nibble of the byte; a byte below 16 is its own channel |
| `MidiEvents.ChannelIntoRaw` | lv2/src/midi/event.rs:33-35 | reading the raw byte back gives the same channel |
| `MidiEvents.ChannelOf` | lv2/src/midi/event.rs:51-58 | every message but the hidden variant has a channel, the one it carries |
| `MidiEvents.RawType` | lv2/src/midi/event.rs:60-67 | each variant has its own LV2 message type: note off, note on, program change, and invalid for the hidden one, in both directions |
| `MidiEvents.FromRaw` | lv2/src/midi/event.rs:69-87 | a status byte of one of the three known types gives that message, on the low nibble's channel; exactly the other types give the hidden message |
| `MidiEvents.ToRaw` | lv2/src/midi/event.rs:89-108 | a known message's first byte is its type plus its channel, a voice status byte; then the note and velocity, or the program and 0; the hidden message is three zeros |
| `MidiEvents.FromRawToRaw` | lv2/src/midi/event.rs:69-108 | every message reads back from its raw bytes |
| `MidiEvents.ToRawFromRaw` | lv2/src/midi/event.rs:69-108 | raw bytes of a known type come back from their message, except a program change's third byte, which becomes 0 |
| `MidiEvents.FirstChannelStatusBytes` | lv2/src/midi/event.rs:89-100 | note on and note off on the first channel start with 144 and 128 |
| `Forges.AtomBytes` | lv2/src/atom/header.rs:74-77 | an atom's bytes are its size, its type and its body; the total is the body plus the 8-byte header |
| `Forges.SequenceHeader` | lv2/src/atom/types/sequence.rs:55-69 | a fresh sequence header says size 8, the sequence type, the unit URID and a zero pad, in 16 bytes |
| `Forges.NewForge` | lv2/src/atom/forge.rs:64-68 | a new forge writes at 0 with no sequence open, and keeps the forge invariant |
| `Forges.ForgeRawPadded` | lv2/src/atom/forge.rs:35-44 | a write that does not panic fits the buffer, copies the data at the position and advances it by the padded size; one that fits a buffer below 2^32 does not panic |
| `Forges.AddSizes` | lv2/src/atom/forge.rs:124-127 | growing the open headers keeps the buffer's length; it panics when a `u32` size overflows |
| `Forges.Write` | lv2/src/atom/forge.rs:124-127 | a write through the innermost open sequence keeps the open sequences, fits the buffer and advances the position by the padded size |
| `Forges.WriteAtom` | lv2/src/atom/forge.rs:22-60 | writing an atom advances the position by its padded total size and keeps the open sequences |
| `Forges.BeginSequence` | lv2/src/atom/forge.rs:71-95 | a new sequence opens at the old position, which advances by its 16-byte header |
| `Forges.WriteEvent` | lv2/src/atom/forge.rs:98-103 | an event advances the position by the 8-byte time stamp and the atom's padded size |
| `Forges.BeginNestedSequence` | lv2/src/atom/forge.rs:106-114 | a nested sequence opens after the 8-byte time stamp, and the position moves past its header |
| `Forges.EndSequence` | lv2/src/atom/forge.rs:76-81 | dropping the innermost sequence closes it and leaves every byte and the position as they are |
| `Forges.AddSizesFrame` | lv2/src/atom/forge.rs:124-127 | growing the headers changes no byte outside their size fields |
| `Forges.AddSizesGrow` | lv2/src/atom/forge.rs:124-127 | every open header's size grows by the padded size of the write |
| `Forges.AddSizesDone` | lv2/src/atom/forge.rs:124-127 | headers with room for the padded size do not overflow |
| `Forges.WriteShape` | lv2/src/atom/forge.rs:124-127 | a write first grows the headers, then copies the data at the position |
| `Forges.WriteKeepsValid` | lv2/src/atom/forge.rs:124-127 | a write keeps the invariant: every open header's size is what lies between its body and the position |
| `Forges.WriteKeepsBelow` | lv2/src/atom/forge.rs:35-44 | the data lies at the old position, and below it only the open headers' sizes change |
| `Forges.WriteDone` | lv2/src/atom/forge.rs:124-127 | under the invariant, a write that fits the buffer does not panic |
| `Forges.WriteAtomKeepsValid` | lv2/src/atom/forge.rs:22-60 | writing an atom keeps the invariant |
| `Forges.WriteAtomKeepsBelow` | lv2/src/atom/forge.rs:22-60 | writing an atom changes nothing below the old position but the open headers' sizes |
| `Forges.WriteAtomHeader` | lv2/src/atom/forge.rs:22-60 | the written atom's header holds its body size and the type URID that `update_type_id` stores |
| `Forges.WriteAtomDone` | lv2/src/atom/forge.rs:22-60 | under the invariant, an atom that fits is written |
| `Forges.BeginSequenceKeepsValid` | lv2/src/atom/forge.rs:85-95 | opening a sequence keeps the invariant, the new header counting its own 8-byte body |
| `Forges.BeginSequenceHeader` | lv2/src/atom/forge.rs:85-95 | the new header holds the sequence and unit URIDs |
| `Forges.BeginSequenceKeepsBelow` | lv2/src/atom/forge.rs:85-95 | opening a sequence changes nothing below the old position but the open headers' sizes |
| `Forges.BeginSequenceDone` | lv2/src/atom/forge.rs:85-95 | under the invariant, a sequence header that fits is written |
| `Forges.WriteEventKeepsValid` | lv2/src/atom/forge.rs:98-103 | writing an event keeps the invariant |
| `Forges.WriteEventKeepsBelow` | lv2/src/atom/forge.rs:98-103 | writing an event changes nothing below the old position but the open headers' sizes |
| `Forges.WriteEventStamp` | lv2/src/atom/forge.rs:98-103 | the event's time stamp lies at the old position |
| `Forges.WriteEventDone` | lv2/src/atom/forge.rs:98-103 | under the invariant, an event that fits is written |
| `Forges.BeginNestedSequenceKeepsValid` | lv2/src/atom/forge.rs:106-114 | beginning a nested sequence keeps the invariant |
| `Forges.BeginNestedSequenceDone` | lv2/src/atom/forge.rs:106-114 | under the invariant, a nested sequence that fits is begun |
| `Forges.OpenSize` | lv2/src/atom/forge.rs:124-127 | under the invariant, each open header's size is the distance from the end of its header to the position |
| `AtomForge.Forge.constructor` | lv2/src/atom/forge.rs:64-68 | the forge works over the caller's buffer, at position 0 with no sequence open |
| `AtomForge.Forge.CopyInto` | lv2/src/atom/forge.rs:37-40 | the buffer holds the data at the position and is unchanged elsewhere |
| `AtomForge.Forge.StoreU32` | lv2/src/atom/header.rs:14-16 | the header's size field is replaced in place, and nothing else |
| `AtomForge.Forge.ForgeWriteRawPadded` | lv2/src/atom/forge.rs:35-44 | panics exactly when the value-level write does; otherwise returns where the copy starts and reaches the value-level state |
| `AtomForge.Forge.AddSize` | lv2/src/atom/header.rs:14-16 | one header's `u32` size grows by the padding, and panics with the overflow message exactly when it would pass 2^32 |
| `AtomForge.Forge.GrowHeaders` | lv2/src/atom/forge.rs:124-127 | every open header grows, innermost first, as the value-level `AddSizes` says, and panics when it does |
| `AtomForge.Forge.WriteRawPadded` | lv2/src/atom/forge.rs:124-127 | a write through the innermost level reaches the value-level state, and one that fits does not panic |
| `AtomForge.Forge.WriteAtom` | lv2/src/atom/forge.rs:22-60 | writing an atom reaches the value-level state, keeps the invariant and the bytes below, and advances by the padded size |
| `AtomForge.Forge.OpenSequence` | lv2/src/atom/forge.rs:85-95 | a sequence header is written and opened at the old position, keeping the invariant |
| `AtomForge.Forge.BeginSequence` | lv2/src/atom/forge.rs:71-73 | the outermost sequence opens at the old position, 16 bytes on |
| `AtomForge.Forge.WriteEvent` | lv2/src/atom/forge.rs:98-103 | the time stamp and the atom are written, keeping the invariant and the bytes below |
| `AtomForge.Forge.BeginNestedSequence` | lv2/src/atom/forge.rs:106-114 | the time stamp, then a sequence opened 8 bytes past the old position |
| `AtomForge.Forge.EndSequence` | lv2/src/atom/forge.rs:76-81 | the innermost sequence closes and the invariant holds |
| `AtomForge.NestAt` | lv2/tests/atom/forge.rs:39-43 | one nesting step of the deep-sequence test opens a sequence 8 bytes past the position, 24 bytes on |
| `AtomForge.FloatEventAt` | lv2/tests/atom/forge.rs:44-46 | a float event takes 24 bytes and keeps the open sequences |
| `AtomForge.StartSequence` | lv2/tests/atom/forge.rs:30-37 | the outermost sequence opens at 0 and the position is 16 |
| `AtomForge.OpenFourSequences` | lv2/tests/atom/forge.rs:37-43 | four sequences open at 0, 24, 48 and 72, and the position is 88 |
| `AtomForge.FillInnermost` | lv2/tests/atom/forge.rs:44-45 | the innermost sequence records 32 bytes when dropped, and the position is 112 |
| `AtomForge.DeepSequence` | lv2/tests/atom/forge.rs:29-85 | the four sequence headers say 128, 104, 80 and 32 bytes, and the forge stops at 136, as the test expects |
| `SimpleMappers.IndexOf` | lv2/src/urid/simple_mapper.rs:23-27 | the first index holding the URI, or none exactly when the URI is not stored |
| `SimpleMappers.NonZeroId` | lv2/src/urid/simple_mapper.rs:28-35 | a count between 1 and 2^32 is its own id; any id given is a valid non-zero `u32` |
| `SimpleMappers.Mapped` | lv2/src/urid/simple_mapper.rs:21-36 | a stored URI keeps the list as it is, a new one is appended; the list stays free of repeats; below 2^32 URIs the id is the URI's 1-based place |
| `SimpleMappers.Unmapped` | lv2/src/urid/simple_mapper.rs:38-42 | an id gives a URI exactly when it is at most the number stored, and then the one at that place |
| `SimpleMappers.MapTwice` | lv2/src/urid/simple_mapper.rs:21-63 | mapping a URI again gives the same id and changes nothing |
| `SimpleMappers.IndexOfFirst` | lv2/src/urid/simple_mapper.rs:23-27 | an index holding the URI with none before it is the one found |
| `SimpleMappers.UnmapOfMap` | lv2/src/urid/simple_mapper.rs:21-67 | below 2^32 URIs, the id a URI maps to unmaps to that URI |
| `SimpleMappers.SimpleMapper.constructor` | lv2/src/urid/simple_mapper.rs:15-17 | a new mapper holds no URI |
| `SimpleMappers.SimpleMapper.Map` | lv2/src/urid/simple_mapper.rs:21-36 | the id and the new list are those of `Mapped` on the old list |
| `SimpleMappers.SimpleMapper.Unmap` | lv2/src/urid/simple_mapper.rs:38-42 | the URI is the one `Unmapped` finds in the current list |
| `UridMaps.Mapped` | session/src/lv2_resources.rs:300-316 | a stored URI returns its id and changes nothing; a new URI gets the counter's value, is stored with it, and the counter moves on by one, wrapping at 2^32 |
| `UridMaps.MappedKeepsFresh` | session/src/lv2_resources.rs:300-316 | until the counter's last value, ids stay between 1 and the counter and no two URIs share one |
| `UridMaps.MappedDistinct` | session/src/lv2_resources.rs:300-316 | two URIs mapped one after the other get the same id only when they are the same URI |
| `UridMaps.CounterWraps` | session/src/lv2_resources.rs:310-312 | at its last value the `AtomicU32` counter wraps, so the next new URI gets 0 |
| `UridMaps.UridMapNative.constructor` | session/src/lv2_resources.rs:286-293 | nothing is mapped and the counter starts at 1 |
| `UridMaps.UridMapNative.Map` | session/src/lv2_resources.rs:300-316 | the id, the stored pairs and the counter are those of `Mapped`, and the ids stay valid |
| `Lv2Options.NewOptions` | luil/src/features/options.rs:28-38 | the array holds only the empty option and no value is kept |
| `Lv2Options.PushOption` | luil/src/features/options.rs:113-117 | the array ends with the empty option; a terminated array keeps its options and gains the new one last |
| `Lv2Options.PushOptionAppends` | luil/src/features/options.rs:113-117 | pushing appends the option to those before the terminator |
| `Lv2Options.CStrOf` | luil/src/features/options.rs:46 | a URI is accepted exactly when it ends with its only NUL, and its text is what comes before |
| `Lv2Options.Utf8Len` | luil/src/features/options.rs:97 | a text has at least as many UTF-8 bytes as characters |
| `Lv2Options.SetFloatOption` | luil/src/features/options.rs:40-62 | panics exactly on a malformed URI; otherwise a new box holds the value under its key, and an option of size 4 and the Float type pointing at it is pushed |
| `Lv2Options.SetIntOption` | luil/src/features/options.rs:64-86 | the same with an `i32` and the Int type |
| `Lv2Options.SetStringOption` | luil/src/features/options.rs:88-111 | panics exactly on a NUL in the value, a malformed URI or a size overflow; otherwise the option's size is the UTF-8 length plus one |
| `Lv2Options.SettersPushOne` | luil/src/features/options.rs:40-117 | every setter keeps the array terminated and adds exactly one option after the earlier ones |
| `Lv2Options.SetIntOptionPointsAtValue` | luil/src/features/options.rs:64-86 | the new option points at a box holding the value, with the Int type and size 4 |
| `Lv2Options.SetIntOptionTwiceFreesFirstBox` | luil/src/features/options.rs:64-86 | setting one key twice leaves the first option pointing at a freed box |
| `Lv2Options.CorrectedSetIntOption` | luil/src/features/options.rs:64-86 | as intended: the key holds the new value, and the pushed option points at the key's box |
| `Lv2Options.CorrectedSetIntOptionKeepsLive` | luil/src/features/options.rs:64-86 | with the correction, every option keeps pointing at a live box |
| `Lv2Options.Options.constructor` | luil/src/features/options.rs:28-38 | the fields hold the state of `NewOptions` |
| `Lv2Options.Options.PushOptionRecord` | luil/src/features/options.rs:113-117 | the array becomes `PushOption` of the old one, and nothing else changes |
| `Lv2Options.Options.SetFloat` | luil/src/features/options.rs:40-62 | panics when `SetFloatOption` does, and otherwise reaches its state |
| `Lv2Options.Options.SetInt` | luil/src/features/options.rs:64-86 | panics when `SetIntOption` does, and otherwise reaches its state |
| `Lv2Options.Options.SetIntCorrected` | luil/src/features/options.rs:64-86 | panics when `CorrectedSetIntOption` does, and otherwise reaches its state |
| `Lv2Options.Options.SetString` | luil/src/features/options.rs:88-111 | panics when `SetStringOption` does, and otherwise reaches its state |

## Left out

- Chords.py: the Qt window (widgets, grid layout, signal wiring, `show`/`exec_`), reading and writing the score file named on the command line, the `print` traces and `quit()` are not modelled; the score is a sequence of already classified lines and the result a sequence of outputs.
- Chords.py: a `NOTE` line that does not split into five integer fields, or a `BEATLEN` line that does not split into two, raises in the source; the `Line` type makes such lines unrepresentable instead.
- Chords.py: the spin boxes' ranges and the two-decimal rounding of the double spin boxes are not modelled; rates are exact `real`s.
- Floating point in general: `f32` rounding is not modelled. Values the source only compares, adds or truncates are `real`, and `f32` literals are kept as text. Every other float computation is outside the model or a parameter.
- Scales: `get_pitchs_names` is modelled through the name tables, but the frequency functions (`*_frequency`, `frequency_ratio`) are floating point and are not modelled. `fetch_frequency`, which pitch_fetcher.rs calls, is not in scale/src/scale.rs, so it is the parameter `freqOf`.
- PitchFetchers.NewPitchFetcher: the `expect("Pitch error")` on `fetch_frequency` is not modelled, because the frequency function is a parameter that always answers.
- PluginData.ToText: a float is written back as the literal it was read from. Rust's `f32` formatting is not modelled.
- Identifiers.IdCounter.Inc: a `u32` overflow is modelled as the panic of a debug build. A release build would wrap to 0.
- TalkerEar: `PortType::can_hear`, `PortType::to_string` and a talk's `voice_value` are not part of this model. They are parameters.
- Talkers: what each talker kind's `talk` computes, and how a data change rebuilds a talker, belong to each kind. They are parameters. The `Entree` type is not part of this model.
- Voices: the sample buffer (`Horn`) is not modelled; only its port type is.
- Talkers.TalkerCab.DependsOf: `Ear::depends_of`, which `depends_of` calls for each ear, is not part of this model; the model takes an ear to depend on a talker when it listens to it, as `Ear::is_listening_talker` (talker/src/ear.rs:552-562) says.
- Voices.Voice.SetAssociatedEarSet: the definition of `Voice::set_associated_ear_set` is not part of this model; the method stores the pair that talker/src/talker.rs:105-115 reads back with `get_associated_ear_set`.
- TalkerEar: `Hum::listen` and the mixing of sample buffers are DSP and are not modelled.
- PluginEars.Listen: `Ear::listen` is modelled through the lengths and the voice caches it reads and leaves; the sample buffers are not modelled.
- PluginEars.ListenTalk: a talker that talks is taken to leave the voice it was asked for at the tick with the length it returns, as the constant talkers of audio_talker.rs and cv_talker.rs do for their one voice. What a plug-in talker does to its other voices is not modelled.
- PluginEars.VisitEarFlattenIndex: returns the talk the visitor would run on. Running the visitor `f`, and passing its error on, are left to the caller.
- PluginEars: the ear constructors (`def_ear`, `control`, `audio`, `cv`, `talks`, `controls`, `audios`, `cvs`), the buffer accessors, `visit_horn`, `visit_talk_horn` and `visit_ear_tag` are not modelled. They build or read sample buffers.
- TseqSequence: `create_part_events` is modelled through its index cycling (`Cycle`), the events of one hit (`Hit`), the growth of the pending events (`Grow`) and the envelope and fade priorities. The `f32` `mul` loop, the binder fetches, `to_ticks` and the final tick update are not modelled. Neither are `create_fragment_events`, `create_events` (method and function) and `Event::new`, which assemble these steps with floating-point values.
- TseqAudioEvent: `assign_buffer`'s sample values and the curve cores are sample-level DSP. Only the output length and the fade ticks are modelled.
- TseqMidiSeq: `midi_to_freq`, `freq_to_midi` and the pitch bend are floating point. The conversions are the parameter `NoteConversions`. The `eprintln` in `talk` is not modelled. Neither are the errors of `push_midi_event`, which writes into a foreign LV2 buffer.
- Channels: `names()` only lists the layout names for the GUI and is not modelled. The message on standard error of `Layout::index` is left out.
- AudioFileOutputs: the output's identifier and the audio encoder (`Writer`, `AudioFileOutput::open`) are outside the model. The encoder's outcomes are parameters. `pause` and `run` always succeed and are not modelled.
- Mixers: `come_out` is modelled by its final stage, the master volume and the clamp. `listen_ears`, the track set-up and the writes to outputs are DSP or foreign calls. The volume ear of `Mixer::new` is left out.
- MixerPresenters: `mutable_outputs` only lends the list to the GUI and is not modelled.
- GraphPresenters.SessionPresenter.ModifyBand: the session that applies the edit is not modelled, so neither is the `State` notification or the error that `manage_state_result` sends after it (src/session_presenter.rs:124-129). `notices` holds the other notifications only.
- GraphControlers: the `selected_ear`, `selected_voice` and `new_talker` fields are used only by commented-out code and are not modelled. The talker edits it asks for come back as an outcome parameter.
- PluginsManagers: lilv plug-in discovery and feature filtering are foreign calls. The outcome of `make_lv2_talker` is a parameter. `run` is not modelled.
- Dsp: the `tanh` and `atan` audioizers are transcendental and are not modelled.
- Util: `print_cairo_result` only prints a GUI result and is not modelled.
- EventBus: the observer lists are closures and are not modelled. The presenters announce `TalkerSelected` and `TalkerUnselected`, which session/src/event_bus.rs lacks, so the model's `Notification` has them.
- UridMaps: the `RwLock` is left out, so `map` is one atomic step. The `println!` trace is left out too.
- Lv2Options: the URID map is a function parameter. `feature` only exposes a pointer and is not modelled.
- Threads, players, the GTK and cairo views, lilv/suil plumbing, the LV2 feature descriptors and the audio file reader and writer are outside the model.
- The `create_id_is_stable` test in session/src/lv2_resources.rs expects a hash that `create_id` does not compute, so it is not modelled.
- Lv2Options: `set_float_option` and `set_string_option` free a replaced value in the same way as `set_int_option`. Only the integer setter carries the correction listed under Findings.

## Findings

| source | as written | input that shows it | evidently intended | confidence | as-written member | corrected member |
|---|---|---|---|---|---|---|
| session/src/band.rs:358-367 | `replace_talker` invalidates the ports both talkers have with different types, and the ports only the new talker has; ports only the old talker has are never invalidated | a talker with two audio voices, listened to on port 1, replaced by a talker with one audio voice: the talk stays, on a port the new talker lacks | every old port that the new talker lacks, or has with another type, is invalidated | medium, not executed | `Bands.InvalidatedPortsKeepsMissingPort`, `Bands.Band.ReplaceTalker` | `Bands.Band.ReplaceTalkerCorrected`, `Bands.CorrectedReplaceTalkerKeepsPortTypes` |
| session/src/talkers/tseq/parser.rs:120-129 | `beat` accepts any run of digits, then `i32::from_str(bpm).unwrap()` panics when they exceed `i32::MAX` | `beat b : 3000000000` followed by a newline | a tempo that does not fit an `i32` is refused like any other malformed line | high, not executed | `TseqParser.BeatAsWritten`, `TseqParser.BeatOverflowPanics` | `TseqParser.Beat`, `TseqParser.BeatAgrees` |
| session/src/band.rs:221-243 | `Band::serialize` writes a connection as `> ear.set.hum talk`, without the talk index and ` <- `, which `parse` (session/src/parser.rs:87-138) requires | a talker with one connection, saved and read back: reading panics | saved bands read back; the reader's format is `> ear.set.hum.talk <- id:voice` | medium, not executed | `SessionParser.SavedConnectionDoesNotReadBack` | `SessionParser.ReadBandText` |
| session/src/band.rs:236-237 | a voice with an empty tag is saved as the bare talker id, which the reader takes for a constant value | a talk to talker 5 through a voice with an empty tag is saved as `5` and read back as the constant 5 | the voice is saved as `5:`, which reads back as talker 5 | low, not executed | `SessionParser.BareIdReadsAsConstant` | `SessionParser.ReadBandText` |
| src/graph_presenter.rs:380-427 | `select_voice` tests the selected hum and the selected add-in hum with two separate `if let`s, not `else if`; with no voice selected, both run | a click on a voice when nothing is selected: `VoiceSelected` and `SelectionChanged` are announced twice | one announcement of each change | medium, not executed | `GraphPresenters.VoiceClick`, `GraphPresenters.VoiceClickRepeats` | `GraphPresenters.VoiceClickCorrected`, `GraphPresenters.VoiceClickCorrectedAnnounces` |
| src/graph_presenter.rs:405-424 | after adding a voice to the selected add-in hum, `select_voice` announces `EarUnselected` for it and keeps the voice selected | a click on another talker's voice with an add-in hum selected | the add-in hum is announced as `EarAddInUnselected` and nothing stays selected | medium, not executed | `GraphPresenters.VoiceClickMisannouncesAddIn` | `GraphPresenters.VoiceClickCorrected`, `GraphPresenters.GraphPresenter.SelectVoiceCorrected` |
| luil/src/features/options.rs:73-85 | `set_int_option` inserts a new box under the key. A key set earlier loses its old box, which is freed, but the option pushed then still points at it | `set_int_option(x, 1)` then `set_int_option(x, 2)`: the first option points at freed memory | a key set again keeps its box and the box holds the new value, so every option points at a live value | medium, not executed | `Lv2Options.SetIntOptionTwiceFreesFirstBox`, `Lv2Options.Options.SetInt` | `Lv2Options.CorrectedSetIntOption`, `Lv2Options.CorrectedSetIntOptionKeepsLive`, `Lv2Options.Options.SetIntCorrected` |
