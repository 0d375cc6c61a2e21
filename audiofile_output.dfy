/** The audio file output of a mixer (session/src/audiofile_output.rs): four
    settings saved as one `codec|rate|layout|path` line, and an optional
    writer. The writer itself (the audio encoder) is outside the model: it is
    seen through its channel count, and the outcomes of its operations are
    parameters of the methods that call it. */
module AudioFileOutputs {
  import opened Wrappers
  import opened Numeric
  import opened Strs
  import Channels

  const MODEL: string := "file"
  /** `output::KIND` (session/src/output.rs:11). */
  const KIND: string := "output"
  const NOT_OPEN: string := "AudioFileOutput not open"

  /** What a backup line holds: the codec, the output sample rate, the
      channel layout and the file path. */
  datatype Settings = Settings(codecName: string, sampleRate: nat, channelLayout: string, filePath: string)

  /** The configuration text that `backup` writes. */
  function BackupText(s: Settings): string {
    Join([s.codecName, FormatNat(s.sampleRate), s.channelLayout, s.filePath], '|')
  }

  /** The parsing part of `from_backup`: exactly four `|`-separated parts,
      the second a `usize`. */
  function ParseBackup(configuration: string): (r: Result<Settings>)
    ensures r.Ok? <==> |Split(configuration, '|')| == 4 && ParseUsize(Split(configuration, '|')[1]).Some?
    ensures r.Ok? ==> r.value.codecName == Split(configuration, '|')[0]
    ensures r.Ok? ==> r.value.channelLayout == Split(configuration, '|')[2]
    ensures r.Ok? ==> r.value.filePath == Split(configuration, '|')[3]
    ensures |Split(configuration, '|')| != 4 ==>
      r == Err("AudioFileOutput configuration " + configuration + " need 4 parameters!")
  {
    var params := Split(configuration, '|');
    if |params| == 4 then
      match ParseUsize(params[1])
      case None => Err(UnsignedErrorText(params[1], USIZE_LIMIT))
      case Some(rate) => Ok(Settings(params[0], rate, params[2], params[3]))
    else
      Err("AudioFileOutput configuration " + configuration + " need 4 parameters!")
  }

  /** A backup line reads back as the settings that wrote it, when the
      texts hold no `|` and the rate fits a `usize`. */
  lemma {:induction false} BackupReadsBack(s: Settings)
    requires '|' !in s.codecName && '|' !in s.channelLayout && '|' !in s.filePath
    requires s.sampleRate < USIZE_LIMIT
    ensures ParseBackup(BackupText(s)) == Ok(s)
  {
    var parts := [s.codecName, FormatNat(s.sampleRate), s.channelLayout, s.filePath];
    assert '|' !in FormatNat(s.sampleRate) by {
      assert forall k :: 0 <= k < |FormatNat(s.sampleRate)| ==> IsDigit(FormatNat(s.sampleRate)[k]);
    }
    JoinSplit(parts, '|');
    ParseFormatNat(s.sampleRate, USIZE_LIMIT);
  }

  /** A line with a part too many never reads: a path holding a `|` is
      lost to the backup. */
  lemma BarInPathIsLost(s: Settings)
    requires '|' !in s.codecName && '|' !in s.channelLayout && s.filePath == "a|b"
    ensures ParseBackup(BackupText(s)).Err?
  {
    var parts := [s.codecName, FormatNat(s.sampleRate), s.channelLayout, "a", "b"];
    assert '|' !in FormatNat(s.sampleRate) by {
      assert forall k :: 0 <= k < |FormatNat(s.sampleRate)| ==> IsDigit(FormatNat(s.sampleRate)[k]);
    }
    var rate := FormatNat(s.sampleRate);
    assert Join(parts[4..], '|') == "b";
    assert Join(parts[3..], '|') == "a" + "|" + "b" == s.filePath;
    assert Join(parts[2..], '|') == s.channelLayout + "|" + s.filePath == Join([s.channelLayout, s.filePath], '|');
    assert Join(parts[1..], '|') == rate + "|" + Join(parts[2..], '|') == Join([rate, s.channelLayout, s.filePath], '|');
    assert Join(parts, '|') == BackupText(s);
    JoinSplit(parts, '|');
  }

  /** An open encoder, seen through the number of channels it writes. */
  datatype Writer = Writer(channels: nat)

  class AudioFileOutput {
    var codecName: string
    var inSampleRate: nat
    var outSampleRate: nat
    var channelLayout: string
    var filePath: string
    var writer: Option<Writer>

    /** `AudioFileOutput::new` (its identifier is left out). */
    constructor (codecName: string, inSampleRate: nat, outSampleRate: nat, channelLayout: string, filePath: string)
      ensures this.codecName == codecName && this.inSampleRate == inSampleRate && this.outSampleRate == outSampleRate
      ensures this.channelLayout == channelLayout && this.filePath == filePath && writer == None
    {
      this.codecName := codecName;
      this.inSampleRate := inSampleRate;
      this.outSampleRate := outSampleRate;
      this.channelLayout := channelLayout;
      this.filePath := filePath;
      writer := None;
    }

    /** The settings `backup` saves. */
    function Saved(): Settings
      reads this
    {
      Settings(codecName, outSampleRate, channelLayout, filePath)
    }

    /** `backup`: the kind, the model and the configuration line. */
    function Backup(): (r: (string, string, string))
      reads this
      ensures r.0 == KIND && r.1 == MODEL && r.2 == BackupText(Saved())
    {
      (KIND, MODEL, BackupText(Saved()))
    }

    /** `channels`: the writer's count while one is open, the layout's
        otherwise. */
    method ChannelCount() returns (n: nat)
      ensures writer.Some? ==> n == writer.value.channels
      ensures writer.None? ==> n == |Channels.LayoutChannelsNames(channelLayout)|
    {
      match writer {
        case Some(w) => n := w.channels;
        case None => n := Channels.ChannelCount(channelLayout);
      }
    }

    /** `open`: `created` is the outcome of starting the encoder with the
        layout's channel count (its channel count when it started) and
        `header` that of writing the file header. An encoder with another
        count changes the layout to the first one with its count, even when
        the header then fails and no writer is kept. */
    method Open(created: Result<nat>, header: Result<()>) returns (r: Result<()>)
      modifies this
      ensures created.Err? ==> r == Err(created.msg) && channelLayout == old(channelLayout) && writer == old(writer)
      ensures created.Ok? && created.value == |Channels.LayoutChannelsNames(old(channelLayout))| ==>
        channelLayout == old(channelLayout)
      ensures created.Ok? && created.value != |Channels.LayoutChannelsNames(old(channelLayout))| ==>
        channelLayout == Channels.LayoutWithChannels(created.value)
      ensures created.Ok? ==> r == header
      ensures created.Ok? && header.Ok? ==> writer == Some(Writer(created.value))
      ensures created.Ok? && header.Err? ==> writer == old(writer)
      ensures codecName == old(codecName) && inSampleRate == old(inSampleRate)
      ensures outSampleRate == old(outSampleRate) && filePath == old(filePath)
    {
      var channels := Channels.ChannelCount(channelLayout);
      if created.Err? {
        return Err(created.msg);
      }
      var w := Writer(created.value);
      if w.channels != channels {
        channelLayout := Channels.FromChannels(w.channels);
      }
      if header.Err? {
        return header;
      }
      writer := Some(w);
      r := header;
    }

    /** `write`: `written` is the outcome of the encoder's own write. */
    method Write(written: Result<()>) returns (r: Result<()>)
      ensures writer.None? ==> r == Err(NOT_OPEN)
      ensures writer.Some? ==> r == written
    {
      if writer.None? {
        return Err(NOT_OPEN);
      }
      r := written;
    }

    /** `close`: `closed` is the outcome of closing the encoder, which is
        dropped whatever that outcome. */
    method Close(closed: Result<()>) returns (r: Result<()>)
      modifies this
      ensures old(writer).None? ==> r == Err(NOT_OPEN)
      ensures old(writer).Some? ==> r == closed
      ensures writer == None
      ensures codecName == old(codecName) && inSampleRate == old(inSampleRate) && outSampleRate == old(outSampleRate)
      ensures channelLayout == old(channelLayout) && filePath == old(filePath)
    {
      if writer.None? {
        return Err(NOT_OPEN);
      }
      writer := None;
      r := closed;
    }
  }

  /** `from_backup`: a new output with the rate of the session as input
      rate and the four saved settings, or the parsing error. */
  method FromBackup(inSampleRate: nat, configuration: string) returns (r: Result<AudioFileOutput>)
    ensures r.Ok? <==> ParseBackup(configuration).Ok?
    ensures r.Err? ==> r.msg == ParseBackup(configuration).msg
    ensures r.Ok? ==> fresh(r.value) && r.value.writer == None && r.value.inSampleRate == inSampleRate
    ensures r.Ok? ==> r.value.Saved() == ParseBackup(configuration).value
  {
    var parsed := ParseBackup(configuration);
    if parsed.Err? {
      return Err(parsed.msg);
    }
    var s := parsed.value;
    var output := new AudioFileOutput(s.codecName, inSampleRate, s.sampleRate, s.channelLayout, s.filePath);
    r := Ok(output);
  }
}
