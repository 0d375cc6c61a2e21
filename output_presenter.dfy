/** The editor's view of one output of a mixer (src/output_presenter.rs):
    the codec, sample rate, channel layout and file path the user can
    change, and the positions of the current choices in the menus. */
module OutputPresenters {
  import opened Wrappers
  import opened Numeric
  import opened Seqs
  import Channels

  const DEFAULT_CODEC: string := "flac"
  const CODECS_LABELS: seq<string> := ["FLAC", "MP3", "Ogg Vorbis", "Opus", "WAV 16-bit", "WAV 24-bit"]
  const CODECS_NAMES: seq<string> := [DEFAULT_CODEC, "libmp3lame", "libvorbis", "libopus", "pcm_s16le", "pcm_s24le"]
  const CODEC_CONTAINERS_EXTENTIONS: seq<string> := [DEFAULT_CODEC, "mp3", "ogg", "opus", "wav", "wav"]

  const DEFAULT_SAMPLE_RATE: nat := 44100
  const SAMPLE_RATES: seq<string> := ["8000", "11025", "16000", "22050", "32000", "44100", "48000", "88200", "96000"]

  /** The menu position of a codec name, the first one when it is unknown. */
  function CodecIndexOf(codec: string): (r: nat)
    ensures r < |CODECS_NAMES|
    ensures codec in CODECS_NAMES ==> CODECS_NAMES[r] == codec && forall j :: 0 <= j < r ==> CODECS_NAMES[j] != codec
    ensures codec !in CODECS_NAMES ==> r == 0
  {
    FirstIndexOf(CODECS_NAMES, codec).GetOr(0)
  }

  /** The menu position of a sample rate written in decimal, the first one
      when it is not in the menu. */
  function SampleRateIndexOf(rate: nat): (r: nat)
    ensures r < |SAMPLE_RATES|
    ensures FormatNat(rate) in SAMPLE_RATES ==> SAMPLE_RATES[r] == FormatNat(rate)
    ensures FormatNat(rate) !in SAMPLE_RATES ==> r == 0
  {
    FirstIndexOf(SAMPLE_RATES, FormatNat(rate)).GetOr(0)
  }

  class OutputPresenter {
    /** The id of the output's identifier, the only part of it read here. */
    const id: nat
    var codecName: string
    var sampleRate: nat
    var channelLayout: string
    var filePath: string

    /** `OutputPresenter::new`, and `from`, which reads the same five
        values off an output. */
    constructor (id: nat, codecName: string, sampleRate: nat, channelLayout: string, filePath: string)
      ensures this.id == id && this.codecName == codecName && this.sampleRate == sampleRate
      ensures this.channelLayout == channelLayout && this.filePath == filePath
    {
      this.id := id;
      this.codecName := codecName;
      this.sampleRate := sampleRate;
      this.channelLayout := channelLayout;
      this.filePath := filePath;
    }

    method SetCodecName(value: string)
      modifies this
      ensures codecName == value
      ensures sampleRate == old(sampleRate) && channelLayout == old(channelLayout) && filePath == old(filePath)
    {
      codecName := value;
    }

    method SetSampleRate(value: nat)
      modifies this
      ensures sampleRate == value
      ensures codecName == old(codecName) && channelLayout == old(channelLayout) && filePath == old(filePath)
    {
      sampleRate := value;
    }

    method SetChannelLayout(value: string)
      modifies this
      ensures channelLayout == value
      ensures codecName == old(codecName) && sampleRate == old(sampleRate) && filePath == old(filePath)
    {
      channelLayout := value;
    }

    method SetFilePath(value: string)
      modifies this
      ensures filePath == value
      ensures codecName == old(codecName) && sampleRate == old(sampleRate) && channelLayout == old(channelLayout)
    {
      filePath := value;
    }

    /** `codec_index` (the message on standard error is left out). */
    method CodecIndex() returns (idx: nat)
      ensures idx == CodecIndexOf(codecName)
      ensures codecName in CODECS_NAMES ==> idx < |CODECS_NAMES| && CODECS_NAMES[idx] == codecName
      ensures codecName !in CODECS_NAMES ==> idx == 0
    {
      var found := Position(CODECS_NAMES, codecName);
      idx := if found.Some? then found.value else 0;
    }

    /** `sample_rate_index`: the rate is written in decimal and looked up
        among the menu's texts. */
    method SampleRateIndex() returns (idx: nat)
      ensures idx == SampleRateIndexOf(sampleRate)
      ensures FormatNat(sampleRate) in SAMPLE_RATES ==> idx < |SAMPLE_RATES| && SAMPLE_RATES[idx] == FormatNat(sampleRate)
      ensures FormatNat(sampleRate) !in SAMPLE_RATES ==> idx == 0
    {
      var found := Position(SAMPLE_RATES, FormatNat(sampleRate));
      idx := if found.Some? then found.value else 0;
    }

    /** `channel_layout_index`. */
    method ChannelLayoutIndex() returns (idx: nat)
      ensures idx == Channels.LayoutIndex(channelLayout)
    {
      idx := Channels.Index(channelLayout);
    }
  }

  /** The three codec tables are parallel, and each codec name reads back
      as its own menu position. */
  lemma CodecIndexOfName(i: nat)
    requires i < 6
    ensures |CODECS_LABELS| == |CODECS_NAMES| == |CODEC_CONTAINERS_EXTENTIONS| == 6
    ensures CodecIndexOf(CODECS_NAMES[i]) == i
  {
    assert forall j, k :: 0 <= j < k < 6 ==> CODECS_NAMES[j] != CODECS_NAMES[k];
    FirstIndexOfAt(CODECS_NAMES, i);
  }

  /** The default codec and sample rate are at positions 0 and 5 of their
      menus. */
  lemma DefaultIndices()
    ensures CodecIndexOf(DEFAULT_CODEC) == 0
    ensures SampleRateIndexOf(DEFAULT_SAMPLE_RATE) == 5
  {
    CodecIndexOfName(0);
    assert FormatNat(4) == "4";
    assert FormatNat(44) == "44";
    assert FormatNat(441) == "441";
    assert FormatNat(4410) == "4410";
    assert FormatNat(44100) == "44100";
    assert forall j :: 0 <= j < 5 ==> SAMPLE_RATES[j] != "44100";
    FirstIndexOfAt(SAMPLE_RATES, 5);
  }
}
