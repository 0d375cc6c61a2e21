/** Channel layouts (session/src/channel.rs): thirty layout names and, at
    the same positions, the names of their channels. Lookups by name or by
    channel count fall back to stereo. */
module Channels {
  import opened Wrappers
  import opened Seqs

  const DEFAULT_LAYOUT: string := "stereo"

  const LAYOUTS: seq<string> := [
    "mono", DEFAULT_LAYOUT, "2.1", "3.0", "3.0(back)", "4.0", "quad", "quad(side)", "3.1", "5.0",
    "5.0(side)", "4.1", "5.1", "5.1(side)", "6.0", "6.0(front)", "hexagonal", "6.1", "6.1(back)", "6.1(front)",
    "7.0", "7.0(front)", "7.1", "7.1(wide)", "7.1(wide-side)", "7.1(top)", "octagonal", "cube", "hexadecagonal", "22.2"]

  /** `Layout::definitions`. */
  const DEFINITIONS: seq<seq<string>> := [
    ["FC"],
    ["FL", "FR"],
    ["FL", "FR", "LFE"],
    ["FL", "FR", "FC"],
    ["FL", "FR", "BC"],
    ["FL", "FR", "FC", "BC"],
    ["FL", "FR", "BL", "BR"],
    ["FL", "FR", "SL", "SR"],
    ["FL", "FR", "FC", "LFE"],
    ["FL", "FR", "FC", "BL", "BR"],
    ["FL", "FR", "FC", "SL", "SR"],
    ["FL", "FR", "FC", "LFE", "BC"],
    ["FL", "FR", "FC", "LFE", "BL", "BR"],
    ["FL", "FR", "FC", "LFE", "SL", "SR"],
    ["FL", "FR", "FC", "BC", "SL", "SR"],
    ["FL", "FR", "FLC", "FRC", "SL", "SR"],
    ["FL", "FR", "FC", "BL", "BR", "BC"],
    ["FL", "FR", "FC", "LFE", "BC", "SL", "SR"],
    ["FL", "FR", "FC", "LFE", "BL", "BR", "BC"],
    ["FL", "FR", "LFE", "FLC", "FRC", "SL", "SR"],
    ["FL", "FR", "FC", "BL", "BR", "SL", "SR"],
    ["FL", "FR", "FC", "FLC", "FRC", "SL", "SR"],
    ["FL", "FR", "FC", "LFE", "BL", "BR", "SL", "SR"],
    ["FL", "FR", "FC", "LFE", "BL", "BR", "FLC", "FRC"],
    ["FL", "FR", "FC", "LFE", "FLC", "FRC", "SL", "SR"],
    ["FL", "FR", "FC", "LFE", "BL", "BR", "TFL", "TFR"],
    ["FL", "FR", "FC", "BL", "BR", "BC", "SL", "SR"],
    ["FL", "FR", "BL", "BR", "TFL", "TFR", "TBL", "TBR"],
    ["FL", "FR", "FC", "BL", "BR", "BC", "SL", "SR", "TFL", "TFC", "TFR", "TBL", "TBC", "TBR", "WL", "WR"],
    ["FL", "FR", "FC", "LFE", "BL", "BR", "FLC", "FRC", "BC", "SL", "SR", "TC", "TFL", "TFC", "TFR", "TBL",
     "TBC", "TBR", "LFE2", "TSL", "TSR", "BFC", "BFL", "BFR"]]

  /** The channel names used for a layout nobody knows. */
  const FALLBACK_NAMES: seq<string> := ["Left", "Right"]

  /** The position of a layout, stereo's when it is unknown. */
  function LayoutIndex(layout: string): (r: nat)
    ensures r < |LAYOUTS|
    ensures layout in LAYOUTS ==> LAYOUTS[r] == layout && forall j :: 0 <= j < r ==> LAYOUTS[j] != layout
    ensures layout !in LAYOUTS ==> r == 1
  {
    FirstIndexOf(LAYOUTS, layout).GetOr(1)
  }

  /** The channel names of a layout, left and right when it is unknown. */
  function LayoutChannelsNames(layout: string): (r: seq<string>)
    ensures layout in LAYOUTS ==> r == DEFINITIONS[LayoutIndex(layout)]
    ensures layout !in LAYOUTS ==> r == FALLBACK_NAMES
  {
    match FirstIndexOf(LAYOUTS, layout)
    case Some(i) => DEFINITIONS[i]
    case None => FALLBACK_NAMES
  }

  /** The first definition with `channels` names. */
  function FirstWithChannels(defs: seq<seq<string>>, channels: nat): (r: Option<nat>)
    ensures r.Some? ==> (r.value < |defs| && |defs[r.value]| == channels &&
                         forall j :: 0 <= j < r.value ==> |defs[j]| != channels)
    ensures r.None? ==> forall j :: 0 <= j < |defs| ==> |defs[j]| != channels
  {
    if |defs| == 0 then None
    else if |defs[0]| == channels then Some(0)
    else
      var r := FirstWithChannels(defs[1..], channels);
      assert forall j :: 1 <= j < |defs| ==> defs[j] == defs[1..][j - 1];
      if r.Some? then Some(r.value + 1) else None
  }

  /** The first layout with `channels` channels, stereo when there is none. */
  function LayoutWithChannels(channels: nat): string {
    match FirstWithChannels(DEFINITIONS, channels)
    case Some(i) => LAYOUTS[i]
    case None => DEFAULT_LAYOUT
  }

  /** The first definition with `channels` channels, left and right when there is none. */
  function NamesWithChannels(channels: nat): seq<string> {
    match FirstWithChannels(DEFINITIONS, channels)
    case Some(i) => DEFINITIONS[i]
    case None => FALLBACK_NAMES
  }

  /** `Layout::index` (the message on standard error is left out). */
  method Index(layout: string) returns (idx: nat)
    ensures idx == LayoutIndex(layout)
    ensures layout in LAYOUTS ==> idx < |LAYOUTS| && LAYOUTS[idx] == layout
    ensures layout !in LAYOUTS ==> idx == 1
  {
    var found := Position(LAYOUTS, layout);
    idx := if found.Some? then found.value else 1;
  }

  /** `Layout::from_index`: indexing the array, which panics past its end. */
  function FromIndex(index: nat): (r: Run<string>)
    ensures r.Done? <==> index < |LAYOUTS|
    ensures r.Done? ==> r.value == LAYOUTS[index]
  {
    if index < |LAYOUTS| then Done(LAYOUTS[index]) else Panic("index out of bounds")
  }

  /** `Layout::channels_names`: the loop walks the definitions with the
      index of the layout name beside them, that is, it looks for the
      layout's position. */
  method ChannelsNames(layout: string) returns (names: seq<string>)
    ensures names == LayoutChannelsNames(layout)
  {
    var found := Position(LAYOUTS, layout);
    names := if found.Some? then DEFINITIONS[found.value] else FALLBACK_NAMES;
  }

  /** `Layout::channels`. */
  method ChannelCount(layout: string) returns (n: nat)
    ensures n == |LayoutChannelsNames(layout)|
  {
    var names := ChannelsNames(layout);
    n := |names|;
  }

  /** The loop shared by `Layout::from_channels` and
      `Layout::channels_names_from_channels`: the first of `defs` with
      `channels` names. */
  method FindChannels(defs: seq<seq<string>>, channels: nat) returns (found: Option<nat>)
    ensures found == FirstWithChannels(defs, channels)
  {
    for idx := 0 to |defs|
      invariant forall j :: 0 <= j < idx ==> |defs[j]| != channels
    {
      if |defs[idx]| == channels {
        FirstWithChannelsAt(defs, channels, idx);
        return Some(idx);
      }
    }
    return None;
  }

  /** `Layout::from_channels`. */
  method FromChannels(channels: nat) returns (layout: string)
    ensures layout == LayoutWithChannels(channels)
  {
    var found := FindChannels(DEFINITIONS, channels);
    layout := if found.Some? then LAYOUTS[found.value] else DEFAULT_LAYOUT;
  }

  /** `Layout::channels_names_from_channels`. */
  method ChannelsNamesFromChannels(channels: nat) returns (names: seq<string>)
    ensures names == NamesWithChannels(channels)
  {
    var found := FindChannels(DEFINITIONS, channels);
    names := if found.Some? then DEFINITIONS[found.value] else FALLBACK_NAMES;
  }

  lemma {:induction false} FirstWithChannelsAt(defs: seq<seq<string>>, channels: nat, i: nat)
    requires i < |defs| && |defs[i]| == channels
    requires forall j :: 0 <= j < i ==> |defs[j]| != channels
    ensures FirstWithChannels(defs, channels) == Some(i)
  {
    if i > 0 {
      assert |defs[1..][i - 1]| == channels;
      FirstWithChannelsAt(defs[1..], channels, i - 1);
    }
  }

  /** The layout names are pairwise different. */
  lemma LayoutsDistinct()
    ensures forall i, j :: 0 <= i < j < |LAYOUTS| ==> LAYOUTS[i] != LAYOUTS[j]
  {
  }

  /** The two tables are aligned, and every layout name reads back as its
      own index: `index(from_index(i)) == i`. */
  lemma IndexFromIndex(i: nat)
    requires i < 30
    ensures |LAYOUTS| == |DEFINITIONS| == 30
    ensures FromIndex(i) == Done(LAYOUTS[i]) && LayoutIndex(LAYOUTS[i]) == i
    ensures LayoutChannelsNames(LAYOUTS[i]) == DEFINITIONS[i]
  {
    LayoutsDistinct();
    FirstIndexOfAt(LAYOUTS, i);
  }

  /** Stereo's channels are FL and FR. */
  lemma StereoNames()
    ensures LayoutIndex(DEFAULT_LAYOUT) == 1
    ensures LayoutChannelsNames(DEFAULT_LAYOUT) == ["FL", "FR"]
  {
    assert LAYOUTS[0] != DEFAULT_LAYOUT && LAYOUTS[1] == DEFAULT_LAYOUT;
    FirstIndexOfAt(LAYOUTS, 1);
  }

  /** An unknown layout is taken for stereo by `index` and `channels`,
      though `channels_names` names its channels Left and Right rather
      than FL and FR. */
  lemma UnknownLayout(layout: string)
    requires layout !in LAYOUTS
    ensures LayoutIndex(layout) == LayoutIndex(DEFAULT_LAYOUT)
    ensures LayoutChannelsNames(layout) == ["Left", "Right"]
    ensures |LayoutChannelsNames(layout)| == |LayoutChannelsNames(DEFAULT_LAYOUT)|
  {
    StereoNames();
  }

  /** When some layout has `channels` channels, `from_channels` gives the
      first such layout, which has that many channels, and
      `channels_names_from_channels` gives its names; otherwise both fall
      back to stereo and Left/Right. */
  lemma {:induction false} FromChannelsChannels(channels: nat)
    ensures (exists j :: 0 <= j < |DEFINITIONS| && |DEFINITIONS[j]| == channels) ==>
      LayoutChannelsNames(LayoutWithChannels(channels)) == NamesWithChannels(channels) &&
      |NamesWithChannels(channels)| == channels
    ensures (forall j :: 0 <= j < |DEFINITIONS| ==> |DEFINITIONS[j]| != channels) ==>
      LayoutWithChannels(channels) == DEFAULT_LAYOUT && NamesWithChannels(channels) == ["Left", "Right"]
  {
    match FirstWithChannels(DEFINITIONS, channels)
    case Some(i) => IndexFromIndex(i);
    case None =>
  }
}
