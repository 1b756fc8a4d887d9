/** The binary form of the settings: a fixed run of optional slots, where the slot for
    `datesAsEpochMillis` exists only from 7.11.0 and the one for `alignCheckpoints` only
    from 7.15.0. A reader on an older version fills a missing flag with the reset value. */
module BinaryCodec {
  import opened Wrappers
  import opened Wire
  import opened Settings

  /** How many slots the settings take at a given protocol version. */
  function SlotCount(version: int): nat {
    2 + (if OnOrAfter(version, V7_11_0) then 1 else 0) + (if OnOrAfter(version, V7_15_0) then 1 else 0)
  }

  /** `writeTo`. */
  function WriteTo(c: SettingsConfig, version: int): (out: seq<Slot>)
    ensures |out| == SlotCount(version)
    ensures version < V7_11_0 ==> |out| == 2
  {
    [WriteOptionalInt(c.maxPageSearchSize), WriteOptionalFloat(c.docsPerSecond)]
    + (if OnOrAfter(version, V7_11_0) then [WriteOptionalInt(c.datesAsEpochMillis)] else [])
    + (if OnOrAfter(version, V7_15_0) then [WriteOptionalInt(c.alignCheckpoints)] else [])
  }

  datatype Decoded = Decoded(config: SettingsConfig, rest: seq<Slot>)

  /** The stream constructor `SettingsConfig(StreamInput)`. `None` is the end-of-stream
      exception; slots after the settings are left for the next reader. */
  function ReadFrom(input: seq<Slot>, version: int): (r: Option<Decoded>)
    ensures r.Some? <==> |input| >= SlotCount(version)
    ensures r.Some? ==> r.value.rest == input[SlotCount(version)..]
    ensures r.Some? && version < V7_11_0 ==>
              r.value.config.datesAsEpochMillis == Some(DefaultDatesAsEpochMillis)
    ensures r.Some? && version < V7_15_0 ==>
              r.value.config.alignCheckpoints == Some(DefaultAlignCheckpoints)
  {
    var size :- ReadOptionalInt(input);
    var docs :- ReadOptionalFloat(size.rest);
    var dates :- if OnOrAfter(version, V7_11_0) then ReadOptionalInt(docs.rest)
                 else Some(Read(Some(DefaultDatesAsEpochMillis), docs.rest));
    var align :- if OnOrAfter(version, V7_15_0) then ReadOptionalInt(dates.rest)
                 else Some(Read(Some(DefaultAlignCheckpoints), dates.rest));
    Some(Decoded(SettingsConfig(size.value, docs.value, dates.value, align.value), align.rest))
  }

  /** The settings as a peer on `version` knows them: a flag whose slot the version lacks
      reads as an explicit reset, whatever the writer held. */
  function AsSeenAt(c: SettingsConfig, version: int): SettingsConfig {
    c.(datesAsEpochMillis := if OnOrAfter(version, V7_11_0) then c.datesAsEpochMillis
                             else Some(DefaultDatesAsEpochMillis),
       alignCheckpoints := if OnOrAfter(version, V7_15_0) then c.alignCheckpoints
                           else Some(DefaultAlignCheckpoints))
  }

  /** Reading back what was written at the same version yields the settings as that
      version knows them, and consumes exactly the written slots. */
  lemma RoundTrip(c: SettingsConfig, version: int, rest: seq<Slot>)
    ensures ReadFrom(WriteTo(c, version) + rest, version) == Some(Decoded(AsSeenAt(c, version), rest))
  {
    // Each read takes back the value its write put in the next slot.
    var out := WriteTo(c, version);
    OptionalIntRoundTrip(c.maxPageSearchSize, out[1..] + rest);
    OptionalFloatRoundTrip(c.docsPerSecond, out[2..] + rest);
    if OnOrAfter(version, V7_11_0) {
      OptionalIntRoundTrip(c.datesAsEpochMillis, out[3..] + rest);
    }
    if OnOrAfter(version, V7_15_0) {
      OptionalIntRoundTrip(c.alignCheckpoints, out[4..] + rest);
    }
  }

  /** From 7.15.0 on the binary form loses nothing: the decoded settings are `equals` to
      the written ones, including which fields were unset or reset. */
  lemma RoundTripCurrent(c: SettingsConfig, version: int, rest: seq<Slot>)
    requires OnOrAfter(version, V7_15_0)
    ensures ReadFrom(WriteTo(c, version) + rest, version).Some?
    ensures var d := ReadFrom(WriteTo(c, version) + rest, version).value;
            d.config.Equals(c) && d.rest == rest
  {
  }

  /** Against an older peer the page size and the throttle always survive, and the flags
      the peer's version lacks come back as the reset value, never as null. */
  lemma OldPeerDecode(c: SettingsConfig, version: int)
    requires version < V7_15_0
    ensures ReadFrom(WriteTo(c, version), version).Some?
    ensures var d := ReadFrom(WriteTo(c, version), version).value.config;
            d.maxPageSearchSize == c.maxPageSearchSize
            && d.docsPerSecond == c.docsPerSecond
            && d.alignCheckpoints == Some(DefaultAlignCheckpoints)
            && d.GetAlignCheckpoints() == Some(true)
            && (version < V7_11_0 ==> d.datesAsEpochMillis == Some(DefaultDatesAsEpochMillis)
                                      && d.GetDatesAsEpochMillis() == Some(false))
            && (version >= V7_11_0 ==> d.datesAsEpochMillis == c.datesAsEpochMillis)
  {
  }
}
