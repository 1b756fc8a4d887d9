# Transform settings (`SettingsConfig`) in Dafny

This project models the settings object of an Elasticsearch transform job,
`SettingsConfig`, together with its nested `Builder`. The settings hold four optional
tunables:

- `maxPageSearchSize`
- `docsPerSecond`
- `datesAsEpochMillis`
- `alignCheckpoints`

Each tunable is a nullable raw value. A reserved value of `-1` (or `-1.0f`) means "reset to
default". Every field therefore has three states: null (unset), the reset value, or a real
value. The two flags are stored as integers, 1 for true and 0 for false.

Modules:

- `Wrappers`: `Option` (a nullable reference) and `Result` (returns or throws).
- `Wire`: the transport the settings are written to and read from.
  - Java `int` is `Int32`. Java `float` is `FloatBits`, its `Float.floatToIntBits` pattern, so
    equality is `Float.equals`.
  - `FloatValue` is the real number a finite bit pattern denotes. `IntToFloat`, the conversion of
    a whole number to `float`, is proved exact against it.
  - A stream is a sequence of optional slots: absent, or present with a 32-bit payload.
    `writeFloat` sends the float's bit pattern, and `writeInt` sends the two's complement.
  - Protocol versions are their numeric ids (`V7_11_0 = 7110099`, `V7_15_0 = 7150099`).
- `Settings`: the immutable record and its accessors. It also holds `equals`, `validate`, the
  constructors, and `TriState`, a view (unset / default / value) of a raw field.
- `BinaryCodec`: `writeTo` and the stream constructor, with the version-gated flag slots.
- `TextCodec`: `toXContent` and the per-key parser mapping, strict and lenient.
  - A printed document is an ordered list of key/value pairs.
  - A document to parse is a map from key to value token.
- `SettingsBuilder`: the mutable `Builder` class and `Merge`, the pure specification of
  `update`.

The plain getters `getMaxPageSearchSize`, `getDocsPerSecond`, `getDatesAsEpochMillisForUpdate`
and `getAlignCheckpointsForUpdate` return the raw field unchanged. In the model they are the
datatype's field selectors.

`MultiBucketConsumerService.DEFAULT_MAX_BUCKETS` is defined outside this file. It is the
parameter `maxBuckets` of `Validate`.

One might expect `validate` to skip a page size holding the reset value. But
`SettingsConfig.java:132` tests only for null, so a page size of `-1` is reported as out of
range. The model follows the code (`ValidateBoundaries`).

## Model

| member | source | states |
|---|---|---|
| `Settings.SettingsConfig.GetDatesAsEpochMillis` | x-pack/plugin/core/src/main/java/org/elasticsearch/xpack/core/transform/transforms/SettingsConfig.java:115-117 | null stays null; the reset value reads as `false`; a real value reads as `raw > 0` |
| `Settings.SettingsConfig.GetAlignCheckpoints` | x-pack/plugin/core/src/main/java/org/elasticsearch/xpack/core/transform/transforms/SettingsConfig.java:123-125 | null stays null; the reset value reads as `true` (unlike the other flag); a real value reads as `raw > 0` |
| `Settings.SettingsConfig.Equals` | x-pack/plugin/core/src/main/java/org/elasticsearch/xpack/core/transform/transforms/SettingsConfig.java:180-193 | `equals` holds exactly when the two records are identical values, with floats compared by bit pattern |
| `Settings.SettingsConfig.Validate` | x-pack/plugin/core/src/main/java/org/elasticsearch/xpack/core/transform/transforms/SettingsConfig.java:131-143 | A set page size outside [10, maxBuckets] appends exactly one message and creates the error holder if there was none. Otherwise the argument comes back unchanged. |
| `Settings.ValidateBoundaries` | x-pack/plugin/core/src/main/java/org/elasticsearch/xpack/core/transform/transforms/SettingsConfig.java:132-140 | 10 and maxBuckets pass; 9, maxBuckets + 1 and the reset value -1 are each reported |
| `Settings.ValidateKeepsErrors` | x-pack/plugin/core/src/main/java/org/elasticsearch/xpack/core/transform/transforms/SettingsConfig.java:133-139 | errors already collected are kept as a prefix, and at most one message is added |
| `Settings.ValidateLooksOnlyAtPageSize` | x-pack/plugin/core/src/main/java/org/elasticsearch/xpack/core/transform/transforms/SettingsConfig.java:132 | the result depends on the page size alone |
| `Settings.Unconfigured` | x-pack/plugin/core/src/main/java/org/elasticsearch/xpack/core/transform/transforms/SettingsConfig.java:72-74 | the no-argument constructor leaves all four fields unset |
| `Settings.FromBooleans` | x-pack/plugin/core/src/main/java/org/elasticsearch/xpack/core/transform/transforms/SettingsConfig.java:76-83 | the `Boolean` constructor maps null to null, never to the reset value; a flag is stored as 1 for true and 0 for false, so the flag getters give back exactly the booleans passed in |
| `Settings.RawOfView` | x-pack/plugin/core/src/main/java/org/elasticsearch/xpack/core/transform/transforms/SettingsConfig.java:37-40 | the three-state reading of a raw field with its reset constant loses nothing |
| `BinaryCodec.WriteTo` | x-pack/plugin/core/src/main/java/org/elasticsearch/xpack/core/transform/transforms/SettingsConfig.java:148-157 | emits 2 slots before 7.11.0, 3 before 7.15.0 and 4 from 7.15.0 on |
| `BinaryCodec.ReadFrom` | x-pack/plugin/core/src/main/java/org/elasticsearch/xpack/core/transform/transforms/SettingsConfig.java:92-105 | Fails exactly when the stream is shorter than the version's slot count, and consumes exactly that many slots. Before 7.11.0 `datesAsEpochMillis` is the reset value; before 7.15.0 so is `alignCheckpoints`. |
| `BinaryCodec.RoundTrip` | x-pack/plugin/core/src/main/java/org/elasticsearch/xpack/core/transform/transforms/SettingsConfig.java:149-156 | Reading back what `writeTo` wrote at the same version gives the settings as that version knows them. Flags it lacks become the reset value; all other fields are unchanged, and trailing slots are left over. |
| `BinaryCodec.RoundTripCurrent` | x-pack/plugin/core/src/main/java/org/elasticsearch/xpack/core/transform/transforms/SettingsConfig.java:100-101 | from 7.15.0 on, the decoded settings are `equals` to the written ones |
| `BinaryCodec.OldPeerDecode` | x-pack/plugin/core/src/main/java/org/elasticsearch/xpack/core/transform/transforms/SettingsConfig.java:93-104 | On an older version the page size and the throttle survive. Missing flags come back as the reset value, never null, whatever the writer held, and then read as `alignCheckpoints` true and `datesAsEpochMillis` false. |
| `TextCodec.ToXContent` | x-pack/plugin/core/src/main/java/org/elasticsearch/xpack/core/transform/transforms/SettingsConfig.java:160-177 | A key is emitted exactly when its field is non-null and not the reset value. Flags print as `raw > 0`. Only the four known keys appear, each at most once, in declaration order. |
| `Wire.IntToFloat` | x-pack/plugin/core/src/main/java/org/elasticsearch/xpack/core/transform/transforms/SettingsConfig.java:49 | The `float` that `floatValue` makes of a whole number of magnitude at most 2^24 denotes exactly that number, under the IEEE 754 binary32 reading `FloatValue`. Zero is `+0.0f`, and the sign bit is set exactly for negative numbers. |
| `TextCodec.ParseIntField` | x-pack/plugin/core/src/main/java/org/elasticsearch/xpack/core/transform/transforms/SettingsConfig.java:48 | An absent key gives null and an explicit `null` gives the null value passed in (`DEFAULT_MAX_PAGE_SEARCH_SIZE`, -1). An `int` gives itself. Any other token fails, including a fractional number, which the library would truncate. |
| `TextCodec.ParseFloatField` | x-pack/plugin/core/src/main/java/org/elasticsearch/xpack/core/transform/transforms/SettingsConfig.java:49 | An absent key gives null and an explicit `null` gives the null value passed in (-1.0f). A float gives itself. A whole number of magnitude at most 2^24 gives the `float` of exactly that value, and 0 gives `+0.0f`. A boolean or a larger whole number fails. |
| `TextCodec.ParseFlagField` | x-pack/plugin/core/src/main/java/org/elasticsearch/xpack/core/transform/transforms/SettingsConfig.java:50-63 | An absent key gives null and an explicit `null` gives the null value passed in, `DEFAULT_DATES_AS_EPOCH_MILLIS` or `DEFAULT_ALIGN_CHECKPOINTS`, both -1. `true`/`false` give 1/0. Any other token fails. |
| `TextCodec.FromXContent` | x-pack/plugin/core/src/main/java/org/elasticsearch/xpack/core/transform/transforms/SettingsConfig.java:205-207 | The strict parser refuses a document with unknown keys. The parse succeeds exactly when the strict key check and all four per-key parses succeed. A parsed field is null exactly when its key is absent. |
| `TextCodec.FromXContentFieldMapping` | x-pack/plugin/core/src/main/java/org/elasticsearch/xpack/core/transform/transforms/SettingsConfig.java:48-63 | In any successfully parsed document, an explicit `null` gives the field's reset value and `true`/`false` give 1/0. A number gives itself; a whole number for the throttle gives the `float` of the same value, `+0.0f` for 0. |
| `TextCodec.TextRoundTrip` | x-pack/plugin/core/src/main/java/org/elasticsearch/xpack/core/transform/transforms/SettingsConfig.java:160-177 | Printing then parsing, with either parser, yields the text view: real values kept, flags normalised to 0/1, unset and reset both unset. |
| `TextCodec.TextRoundTripExact` | x-pack/plugin/core/src/main/java/org/elasticsearch/xpack/core/transform/transforms/SettingsConfig.java:48-63 | settings without reset values and with flags in {0, 1} re-parse to equal settings |
| `TextCodec.TextLosesReset` | x-pack/plugin/core/src/main/java/org/elasticsearch/xpack/core/transform/transforms/SettingsConfig.java:162-174 | every field holding the reset value comes back null |
| `TextCodec.LenientIgnoresUnknown` | x-pack/plugin/core/src/main/java/org/elasticsearch/xpack/core/transform/transforms/SettingsConfig.java:42-47 | the lenient parser reads a document as the strict one reads its known keys |
| `TextCodec.ParsePrintExample` | x-pack/plugin/core/src/main/java/org/elasticsearch/xpack/core/transform/transforms/SettingsConfig.java:58-63 | `{"max_page_search_size": 500, "align_checkpoints": null}` parses to 500 and a reset flag that reads `true`, and prints back as the page size alone |
| `TextCodec.WholeNumberThrottleExample` | x-pack/plugin/core/src/main/java/org/elasticsearch/xpack/core/transform/transforms/SettingsConfig.java:49 | `{"docs_per_second": 100}` parses to `100.0f`, and `{"docs_per_second": -1}` to `-1.0f`, the reset value |
| `TextCodec.UnknownFieldExample` | x-pack/plugin/core/src/main/java/org/elasticsearch/xpack/core/transform/transforms/SettingsConfig.java:34-35 | `{"unknown_field": 1}` fails strictly and parses leniently to unconfigured settings |
| `SettingsBuilder.MergeRaw` | x-pack/plugin/core/src/main/java/org/elasticsearch/xpack/core/transform/transforms/SettingsConfig.java:298-300 | an unset update field leaves the value alone, a reset clears it to unset, a real value overwrites it |
| `SettingsBuilder.Builder.constructor` | x-pack/plugin/core/src/main/java/org/elasticsearch/xpack/core/transform/transforms/SettingsConfig.java:218 | a new builder has every field unset |
| `SettingsBuilder.Builder.FromBase` | x-pack/plugin/core/src/main/java/org/elasticsearch/xpack/core/transform/transforms/SettingsConfig.java:225-230 | a builder from a base holds exactly the base's raw fields |
| `SettingsBuilder.Builder.SetMaxPageSearchSize` | x-pack/plugin/core/src/main/java/org/elasticsearch/xpack/core/transform/transforms/SettingsConfig.java:241-244 | null stores the reset value, anything else is stored; no other field changes |
| `SettingsBuilder.Builder.SetRequestsPerSecond` | x-pack/plugin/core/src/main/java/org/elasticsearch/xpack/core/transform/transforms/SettingsConfig.java:255-258 | null stores -1.0f, anything else is stored; no other field changes |
| `SettingsBuilder.Builder.SetDatesAsEpochMillis` | x-pack/plugin/core/src/main/java/org/elasticsearch/xpack/core/transform/transforms/SettingsConfig.java:271-274 | Null stores -1, true 1, false 0, and no other field changes. The getter then reads the flag given, or `false` after null. |
| `SettingsBuilder.Builder.SetAlignCheckpoints` | x-pack/plugin/core/src/main/java/org/elasticsearch/xpack/core/transform/transforms/SettingsConfig.java:284-287 | Null stores -1, true 1, false 0, and no other field changes. The getter then reads the flag given, or `true` after null. |
| `SettingsBuilder.Builder.Update` | x-pack/plugin/core/src/main/java/org/elasticsearch/xpack/core/transform/transforms/SettingsConfig.java:295-318 | the builder's new state is `Merge` of its old state with the update |
| `SettingsBuilder.Builder.Build` | x-pack/plugin/core/src/main/java/org/elasticsearch/xpack/core/transform/transforms/SettingsConfig.java:320-322 | the built settings are exactly the builder's current fields |
| `SettingsBuilder.MergeClearsResets` | x-pack/plugin/core/src/main/java/org/elasticsearch/xpack/core/transform/transforms/SettingsConfig.java:296-297 | updating settings that hold no reset value never introduces one |
| `SettingsBuilder.MergeIdempotent` | x-pack/plugin/core/src/main/java/org/elasticsearch/xpack/core/transform/transforms/SettingsConfig.java:295-318 | applying the same update twice equals applying it once |
| `SettingsBuilder.MergeUnconfigured` | x-pack/plugin/core/src/main/java/org/elasticsearch/xpack/core/transform/transforms/SettingsConfig.java:298-315 | an update with every field null changes nothing |
| `SettingsBuilder.MergeFieldwise` | x-pack/plugin/core/src/main/java/org/elasticsearch/xpack/core/transform/transforms/SettingsConfig.java:301-314 | each result field depends only on the same field of the base and of the update |
| `SettingsBuilder.MergeSelf` | x-pack/plugin/core/src/main/java/org/elasticsearch/xpack/core/transform/transforms/SettingsConfig.java:306-310 | merging settings into themselves returns them exactly when they hold no reset value |
| `SettingsBuilder.RebuildFromBase` | x-pack/plugin/core/src/main/java/org/elasticsearch/xpack/core/transform/transforms/SettingsConfig.java:225-229 | `new Builder(base).build()` equals `base` |
| `SettingsBuilder.BuildFresh` | x-pack/plugin/core/src/main/java/org/elasticsearch/xpack/core/transform/transforms/SettingsConfig.java:320-321 | `new Builder().build()` is unconfigured and both flags read as null |
| `SettingsBuilder.UpdateWithItself` | x-pack/plugin/core/src/main/java/org/elasticsearch/xpack/core/transform/transforms/SettingsConfig.java:311-315 | `new Builder(base).update(base).build()` equals `base` exactly when `base` holds no reset value |
| `SettingsBuilder.UpdateTwice` | x-pack/plugin/core/src/main/java/org/elasticsearch/xpack/core/transform/transforms/SettingsConfig.java:295 | a builder updated twice with the same settings builds the same as after once, which is `Merge(base, u)` |
| `SettingsBuilder.ResetClearsValue` | x-pack/plugin/core/src/main/java/org/elasticsearch/xpack/core/transform/transforms/SettingsConfig.java:301-305 | a page size of 500 updated with a reset page size becomes unset; other fields are untouched |
| `SettingsBuilder.SetterResetReadsAsDefault` | x-pack/plugin/core/src/main/java/org/elasticsearch/xpack/core/transform/transforms/SettingsConfig.java:272-285 | Setting both flags to null reads `datesAsEpochMillis` as false and `alignCheckpoints` as true. The `Boolean` constructor keeps null as null. |

## Left out

- `hashCode` is not modelled. It uses `Objects.hash`, and only its agreement with `equals` matters. `toString` is a library call. `checkForDeprecations` has an empty body.
- Byte-level stream encoding is left out. A slot stands for the presence byte plus the 4-byte payload, so a presence byte other than 0 or 1 cannot occur in the model.
- Protocol versions are their numeric ids only. Version parsing and comparison machinery is not modelled.
- The document parsing and building library is left out: tokenizer, object parser and output builder. Only the per-key mapping is modelled. Several of the library's behaviours are therefore absent:
  - numbers given as strings;
  - `"true"`/`"false"` strings read as booleans;
  - duplicate keys;
  - the text rendering of floats, including NaN and infinities.
- TextCodec.ParseFloatField: refuses a whole number of magnitude above 2^24 for the throttle. The library's `floatValue` would round it to the nearest `float`. Rounding is not modelled.
- TextCodec.ParseIntField: refuses a fractional number for the page size. The library's `intValue` would truncate it, so `500.7` reads as 500.
- Settings.SettingsConfig.Validate: returns a new list of messages. The source's `addValidationError` appends to the caller's exception object in place and returns that same object, so the aliasing is not modelled. Every caller uses the returned value.
- `FromXContent` reports unknown keys first when a document has several errors, then the known fields in declaration order. The library reports whichever error it meets first in document order.
- `FromXContent` error values carry only the offending key or keys, not the library's message text.
- Builder setters and `update` return the builder itself for call chaining. The model's methods return nothing.
- `Builder.Build` returns a value, so object identity of the built settings is not modelled.
- `DEFAULT_MAX_BUCKETS` is defined outside this file. It is a parameter, and its actual value is not assumed.
