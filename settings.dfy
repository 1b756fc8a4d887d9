/** The transform settings record: four optional tunables, each held as a nullable raw
    value in which a reserved value means "reset to default". So every field has three
    states: null (unset), the reset value, or a real value. The two boolean tunables are
    held as integers, 1 for true and 0 for false. */
module Settings {
  import opened Wrappers
  import opened Wire

  /** The reserved "reset to default" values, one per field. */
  const DefaultMaxPageSearchSize: Int32 := -1
  const DefaultDocsPerSecond: FloatBits := 0xBF80_0000  // -1.0f
  const DefaultDatesAsEpochMillis: Int32 := -1
  const DefaultAlignCheckpoints: Int32 := -1

  /** The meaning of a raw field: not configured, explicitly reset, or set. */
  datatype TriState<T> = Unset | Default | Value(value: T)

  function View<T(==)>(raw: Option<T>, sentinel: T): TriState<T> {
    match raw
    case None => Unset
    case Some(v) => if v == sentinel then Default else Value(v)
  }

  /** The raw form of a state; the inverse of View. */
  function Raw<T>(state: TriState<T>, sentinel: T): Option<T> {
    match state
    case Unset => None
    case Default => Some(sentinel)
    case Value(v) => Some(v)
  }

  lemma RawOfView<T>(raw: Option<T>, sentinel: T)
    ensures Raw(View(raw, sentinel), sentinel) == raw
  {
  }

  datatype SettingsConfig = SettingsConfig(
    maxPageSearchSize: Option<Int32>,
    docsPerSecond: Option<FloatBits>,
    datesAsEpochMillis: Option<Int32>,
    alignCheckpoints: Option<Int32>)
  {
    /** `getDatesAsEpochMillis`: an explicit reset reads as false. */
    function GetDatesAsEpochMillis(): (r: Option<bool>)
      ensures View(datesAsEpochMillis, DefaultDatesAsEpochMillis).Unset? <==> r.None?
      ensures View(datesAsEpochMillis, DefaultDatesAsEpochMillis).Default? ==> r == Some(false)
      ensures View(datesAsEpochMillis, DefaultDatesAsEpochMillis).Value? ==>
                r == Some(datesAsEpochMillis.value > 0)
    {
      if datesAsEpochMillis != None then Some(datesAsEpochMillis.value > 0) else None
    }

    /** `getAlignCheckpoints`: unlike the other boolean, an explicit reset reads as true. */
    function GetAlignCheckpoints(): (r: Option<bool>)
      ensures View(alignCheckpoints, DefaultAlignCheckpoints).Unset? <==> r.None?
      ensures View(alignCheckpoints, DefaultAlignCheckpoints).Default? ==> r == Some(true)
      ensures View(alignCheckpoints, DefaultAlignCheckpoints).Value? ==>
                r == Some(alignCheckpoints.value > 0)
    {
      if alignCheckpoints != None then
        Some(alignCheckpoints.value > 0 || alignCheckpoints.value == DefaultAlignCheckpoints)
      else None
    }

    /** `equals`: field by field, floats compared by bit pattern. */
    function Equals(that: SettingsConfig): (r: bool)
      ensures r <==> this == that
    {
      maxPageSearchSize == that.maxPageSearchSize
      && docsPerSecond == that.docsPerSecond
      && datesAsEpochMillis == that.datesAsEpochMillis
      && alignCheckpoints == that.alignCheckpoints
    }

    /** Whether any field holds its "reset to default" value. */
    predicate HasReset() {
      View(maxPageSearchSize, DefaultMaxPageSearchSize).Default?
      || View(docsPerSecond, DefaultDocsPerSecond).Default?
      || View(datesAsEpochMillis, DefaultDatesAsEpochMillis).Default?
      || View(alignCheckpoints, DefaultAlignCheckpoints).Default?
    }

    predicate MaxPageSearchSizeInRange(maxBuckets: int) {
      maxPageSearchSize == None || 10 <= maxPageSearchSize.value <= maxBuckets
    }

    /** `validate`: adds one message to the accumulated errors when the page size is set
        and outside [10, maxBuckets]; otherwise hands the accumulator back untouched.
        `None` stands for the null exception, which the first message creates. */
    function Validate(maxBuckets: int, errors: Option<seq<string>>): (r: Option<seq<string>>)
      ensures MaxPageSearchSizeInRange(maxBuckets) ==> r == errors
      ensures !MaxPageSearchSizeInRange(maxBuckets) ==>
                r == Some(errors.GetOr([]) + [OutOfRangeMessage(maxPageSearchSize.value, maxBuckets)])
    {
      if maxPageSearchSize != None
         && (maxPageSearchSize.value < 10 || maxPageSearchSize.value > maxBuckets)
      then AddValidationError(OutOfRangeMessage(maxPageSearchSize.value, maxBuckets), errors)
      else errors
    }
  }

  /** `new SettingsConfig()`: nothing configured. */
  function Unconfigured(): (c: SettingsConfig)
    ensures View(c.maxPageSearchSize, DefaultMaxPageSearchSize).Unset?
    ensures View(c.docsPerSecond, DefaultDocsPerSecond).Unset?
    ensures View(c.datesAsEpochMillis, DefaultDatesAsEpochMillis).Unset?
    ensures View(c.alignCheckpoints, DefaultAlignCheckpoints).Unset?
  {
    SettingsConfig(None, None, None, None)
  }

  /** How the constructor taking `Boolean`s stores a flag: null stays null (it does not
      become the reset value), true is 1 and false is 0. */
  function FlagFromBoolean(b: Option<bool>): Option<Int32> {
    if b == None then None else if b.value then Some(1) else Some(0)
  }

  /** The constructor taking `Boolean`s. The boolean accessors give back exactly the
      flags it was given, and it never produces a reset value for them. */
  function FromBooleans(
    maxPageSearchSize: Option<Int32>,
    docsPerSecond: Option<FloatBits>,
    datesAsEpochMillis: Option<bool>,
    alignCheckpoints: Option<bool>): (c: SettingsConfig)
    ensures c.maxPageSearchSize == maxPageSearchSize && c.docsPerSecond == docsPerSecond
    ensures c.GetDatesAsEpochMillis() == datesAsEpochMillis
    ensures c.GetAlignCheckpoints() == alignCheckpoints
    ensures c.datesAsEpochMillis.Some? ==> c.datesAsEpochMillis.value in {0, 1}
    ensures c.alignCheckpoints.Some? ==> c.alignCheckpoints.value in {0, 1}
    ensures !View(c.datesAsEpochMillis, DefaultDatesAsEpochMillis).Default?
    ensures !View(c.alignCheckpoints, DefaultAlignCheckpoints).Default?
  {
    SettingsConfig(
      maxPageSearchSize,
      docsPerSecond,
      FlagFromBoolean(datesAsEpochMillis),
      FlagFromBoolean(alignCheckpoints))
  }

  /** `addValidationError`: creates the exception if there is none, then appends. */
  function AddValidationError(message: string, errors: Option<seq<string>>): Option<seq<string>> {
    Some(errors.GetOr([]) + [message])
  }

  function OutOfRangeMessage(size: int, maxBuckets: int): string {
    "settings.max_page_search_size [" + IntToString(size)
    + "] is out of range. The minimum value is 10 and the maximum is " + IntToString(maxBuckets)
  }

  predicate IsDigit(ch: char) {
    '0' <= ch <= '9'
  }

  /** The number a string of decimal digits denotes. */
  function DigitsValue(s: string): nat
    requires forall i :: 0 <= i < |s| ==> IsDigit(s[i])
  {
    if |s| == 0 then 0
    else
      assert IsDigit(s[|s| - 1]);
      10 * DigitsValue(s[..|s| - 1]) + (s[|s| - 1] as int - '0' as int)
  }

  /** Decimal digits of a natural number, without leading zeros. */
  function NatToString(n: nat): (s: string)
    ensures |s| > 0 && (forall i :: 0 <= i < |s| ==> IsDigit(s[i]))
    ensures s[0] == '0' ==> n == 0
    ensures DigitsValue(s) == n
  {
    var digit := ['0' + (n % 10) as char];
    if n < 10 then digit
    else
      var prefix := NatToString(n / 10);
      assert (prefix + digit)[..|prefix + digit| - 1] == prefix;
      prefix + digit
  }

  /** `Integer.toString`. */
  function IntToString(i: int): (s: string)
    ensures |s| > 0
    ensures s[0] == '-' <==> i < 0
    ensures i >= 0 ==> (forall k :: 0 <= k < |s| ==> IsDigit(s[k])) && DigitsValue(s) == i
    ensures i < 0 ==> (forall k :: 1 <= k < |s| ==> IsDigit(s[k])) && DigitsValue(s[1..]) == -i
  {
    if i < 0 then "-" + NatToString(-i) else NatToString(i)
  }

  /** A page size of 10 and of maxBuckets passes, 9 and maxBuckets + 1 are reported, and so
      is the reset value -1, which is not null. */
  lemma ValidateBoundaries(maxBuckets: Int32, errors: Option<seq<string>>)
    requires 10 <= maxBuckets < 0x7FFF_FFFF
    ensures SettingsConfig(Some(10), None, None, None).Validate(maxBuckets, errors) == errors
    ensures SettingsConfig(Some(maxBuckets), None, None, None).Validate(maxBuckets, errors) == errors
    ensures SettingsConfig(Some(9), None, None, None).Validate(maxBuckets, errors) != errors
    ensures SettingsConfig(Some(maxBuckets + 1), None, None, None).Validate(maxBuckets, errors) != errors
    ensures SettingsConfig(Some(DefaultMaxPageSearchSize), None, None, None).Validate(maxBuckets, errors)
            != errors
  {
    var nine := SettingsConfig(Some(9), None, None, None).Validate(maxBuckets, errors);
    assert |nine.value| == |errors.GetOr([])| + 1;
    var above := SettingsConfig(Some(maxBuckets + 1), None, None, None).Validate(maxBuckets, errors);
    assert |above.value| == |errors.GetOr([])| + 1;
    var reset := SettingsConfig(Some(DefaultMaxPageSearchSize), None, None, None).Validate(maxBuckets, errors);
    assert |reset.value| == |errors.GetOr([])| + 1;
  }

  /** Validation only ever appends: the errors already collected are kept, in order, and
      at most one message is added. */
  lemma ValidateKeepsErrors(c: SettingsConfig, maxBuckets: int, errors: seq<string>)
    ensures c.Validate(maxBuckets, Some(errors)).Some?
    ensures var after := c.Validate(maxBuckets, Some(errors)).value;
            errors <= after && |after| <= |errors| + 1
  {
  }

  /** Only the page size is checked: the other three fields never cause an error. */
  lemma ValidateLooksOnlyAtPageSize(c: SettingsConfig, d: SettingsConfig, maxBuckets: int,
                                    errors: Option<seq<string>>)
    requires c.maxPageSearchSize == d.maxPageSearchSize
    ensures c.Validate(maxBuckets, errors) == d.Validate(maxBuckets, errors)
  {
  }
}
