/** The mutable builder for settings: four raw fields, overwritten in place by setters and
    by a partial update, and snapshotted by `Build`. */
module SettingsBuilder {
  import opened Wrappers
  import opened Wire
  import opened Settings

  /** How `update` treats one field: an unset update field leaves the current value alone,
      a reset clears it to unset, and a real value overwrites it. */
  function MergeRaw<T(==)>(current: Option<T>, update: Option<T>, sentinel: T): (r: Option<T>)
    ensures View(update, sentinel).Unset? ==> r == current
    ensures View(update, sentinel).Default? ==> View(r, sentinel).Unset?
    ensures View(update, sentinel).Value? ==> View(r, sentinel) == View(update, sentinel)
  {
    if update == None then current
    else if update.value == sentinel then None
    else update
  }

  /** The builder state after `update(u)` on a builder holding `base`. */
  function Merge(base: SettingsConfig, u: SettingsConfig): SettingsConfig {
    SettingsConfig(
      MergeRaw(base.maxPageSearchSize, u.maxPageSearchSize, DefaultMaxPageSearchSize),
      MergeRaw(base.docsPerSecond, u.docsPerSecond, DefaultDocsPerSecond),
      MergeRaw(base.datesAsEpochMillis, u.datesAsEpochMillis, DefaultDatesAsEpochMillis),
      MergeRaw(base.alignCheckpoints, u.alignCheckpoints, DefaultAlignCheckpoints))
  }

  /** How a setter stores its argument: null becomes the reset value. */
  function ResetIfNull<T>(v: Option<T>, sentinel: T): T {
    if v == None then sentinel else v.value
  }

  /** How a boolean setter stores its argument: null is the flag's reset value, true is 1,
      false is 0. */
  function FlagOrReset(b: Option<bool>, sentinel: Int32): Int32 {
    if b == None then sentinel else if b.value then 1 else 0
  }

  class Builder {
    var maxPageSearchSize: Option<Int32>
    var docsPerSecond: Option<FloatBits>
    var datesAsEpochMillis: Option<Int32>
    var alignCheckpoints: Option<Int32>

    /** The settings `Build` would produce now. */
    function Staged(): SettingsConfig
      reads this
    {
      SettingsConfig(maxPageSearchSize, docsPerSecond, datesAsEpochMillis, alignCheckpoints)
    }

    /** `new Builder()`: every field unset. */
    constructor ()
      ensures Staged() == Unconfigured()
    {
      maxPageSearchSize := None;
      docsPerSecond := None;
      datesAsEpochMillis := None;
      alignCheckpoints := None;
    }

    /** `new Builder(base)`: starts from the raw fields of `base`. */
    constructor FromBase(base: SettingsConfig)
      ensures Staged() == base
    {
      maxPageSearchSize := base.maxPageSearchSize;
      docsPerSecond := base.docsPerSecond;
      datesAsEpochMillis := base.datesAsEpochMillis;
      alignCheckpoints := base.alignCheckpoints;
    }

    method SetMaxPageSearchSize(size: Option<Int32>)
      modifies this
      ensures View(maxPageSearchSize, DefaultMaxPageSearchSize)
              == if size == None then Default else View(size, DefaultMaxPageSearchSize)
      ensures Staged() == old(Staged()).(maxPageSearchSize := Some(ResetIfNull(size, DefaultMaxPageSearchSize)))
    {
      maxPageSearchSize := Some(if size == None then DefaultMaxPageSearchSize else size.value);
    }

    /** `setRequestsPerSecond`, which sets `docsPerSecond`. */
    method SetRequestsPerSecond(docs: Option<FloatBits>)
      modifies this
      ensures View(docsPerSecond, DefaultDocsPerSecond)
              == if docs == None then Default else View(docs, DefaultDocsPerSecond)
      ensures Staged() == old(Staged()).(docsPerSecond := Some(ResetIfNull(docs, DefaultDocsPerSecond)))
    {
      docsPerSecond := Some(if docs == None then DefaultDocsPerSecond else docs.value);
    }

    method SetDatesAsEpochMillis(flag: Option<bool>)
      modifies this
      ensures Staged().GetDatesAsEpochMillis() == Some(flag.GetOr(false))
      ensures Staged() == old(Staged()).(datesAsEpochMillis := Some(FlagOrReset(flag, DefaultDatesAsEpochMillis)))
    {
      datesAsEpochMillis := Some(if flag == None then DefaultDatesAsEpochMillis
                                 else if flag.value then 1 else 0);
    }

    method SetAlignCheckpoints(flag: Option<bool>)
      modifies this
      ensures Staged().GetAlignCheckpoints() == Some(flag.GetOr(true))
      ensures Staged() == old(Staged()).(alignCheckpoints := Some(FlagOrReset(flag, DefaultAlignCheckpoints)))
    {
      alignCheckpoints := Some(if flag == None then DefaultAlignCheckpoints
                               else if flag.value then 1 else 0);
    }

    /** `update`: merges a partial update into the builder, field by field, reading the
        update's raw values. */
    method Update(u: SettingsConfig)
      modifies this
      ensures Staged() == Merge(old(Staged()), u)
    {
      if u.docsPerSecond != None {
        docsPerSecond := if u.docsPerSecond.value == DefaultDocsPerSecond then None else u.docsPerSecond;
      }
      if u.maxPageSearchSize != None {
        maxPageSearchSize := if u.maxPageSearchSize.value == DefaultMaxPageSearchSize then None
                             else u.maxPageSearchSize;
      }
      if u.datesAsEpochMillis != None {
        datesAsEpochMillis := if u.datesAsEpochMillis.value == DefaultDatesAsEpochMillis then None
                              else u.datesAsEpochMillis;
      }
      if u.alignCheckpoints != None {
        alignCheckpoints := if u.alignCheckpoints.value == DefaultAlignCheckpoints then None
                            else u.alignCheckpoints;
      }
    }

    method Build() returns (c: SettingsConfig)
      ensures c == Staged()
    {
      c := SettingsConfig(maxPageSearchSize, docsPerSecond, datesAsEpochMillis, alignCheckpoints);
    }
  }

  /** Merging into settings free of reset values never introduces one: a reset in the
      update clears the field instead of pinning the reset value. */
  lemma MergeClearsResets(base: SettingsConfig, u: SettingsConfig)
    requires !base.HasReset()
    ensures !Merge(base, u).HasReset()
  {
  }

  /** Applying the same update twice is applying it once. */
  lemma MergeIdempotent(base: SettingsConfig, u: SettingsConfig)
    ensures Merge(Merge(base, u), u) == Merge(base, u)
  {
  }

  /** An update with nothing set changes nothing. */
  lemma MergeUnconfigured(base: SettingsConfig)
    ensures Merge(base, Unconfigured()) == base
  {
  }

  /** No field of the base or of the update affects another field of the result. */
  lemma MergeFieldwise(b1: SettingsConfig, u1: SettingsConfig, b2: SettingsConfig, u2: SettingsConfig)
    ensures b1.maxPageSearchSize == b2.maxPageSearchSize && u1.maxPageSearchSize == u2.maxPageSearchSize
            ==> Merge(b1, u1).maxPageSearchSize == Merge(b2, u2).maxPageSearchSize
    ensures b1.docsPerSecond == b2.docsPerSecond && u1.docsPerSecond == u2.docsPerSecond
            ==> Merge(b1, u1).docsPerSecond == Merge(b2, u2).docsPerSecond
    ensures b1.datesAsEpochMillis == b2.datesAsEpochMillis && u1.datesAsEpochMillis == u2.datesAsEpochMillis
            ==> Merge(b1, u1).datesAsEpochMillis == Merge(b2, u2).datesAsEpochMillis
    ensures b1.alignCheckpoints == b2.alignCheckpoints && u1.alignCheckpoints == u2.alignCheckpoints
            ==> Merge(b1, u1).alignCheckpoints == Merge(b2, u2).alignCheckpoints
  {
  }

  /** Merging settings into themselves gives them back exactly when none holds a reset
      value; each reset value is cleared to unset instead. */
  lemma MergeSelf(base: SettingsConfig)
    ensures Merge(base, base) == base <==> !base.HasReset()
  {
  }

  /** `new Builder(base).build()` is `base`. */
  method RebuildFromBase(base: SettingsConfig) returns (c: SettingsConfig)
    ensures c == base
  {
    var b := new Builder.FromBase(base);
    c := b.Build();
  }

  /** `new Builder().build()` has nothing configured; both flags read as null. */
  method BuildFresh() returns (c: SettingsConfig)
    ensures c == Unconfigured()
    ensures c.GetDatesAsEpochMillis() == None && c.GetAlignCheckpoints() == None
  {
    var b := new Builder();
    c := b.Build();
  }

  /** `new Builder(base).update(base).build()` equals `base` exactly when `base` holds no
      reset value. */
  method UpdateWithItself(base: SettingsConfig) returns (c: SettingsConfig)
    ensures c == base <==> !base.HasReset()
  {
    var b := new Builder.FromBase(base);
    b.Update(base);
    c := b.Build();
    MergeSelf(base);
  }

  /** A builder updated twice with the same settings builds what it builds after once. */
  method UpdateTwice(base: SettingsConfig, u: SettingsConfig) returns (once: SettingsConfig, twice: SettingsConfig)
    ensures once == twice
    ensures once.Equals(Merge(base, u))
  {
    var b := new Builder.FromBase(base);
    b.Update(u);
    once := b.Build();
    b.Update(u);
    twice := b.Build();
    MergeIdempotent(base, u);
  }

  /** With a page size of 500 in the base, an update that resets the page size leaves it
      unset; the other fields are untouched. */
  method ResetClearsValue(base: SettingsConfig, reset: SettingsConfig) returns (c: SettingsConfig)
    requires base.maxPageSearchSize == Some(500)
    requires reset == Unconfigured().(maxPageSearchSize := Some(DefaultMaxPageSearchSize))
    ensures c == base.(maxPageSearchSize := None)
  {
    var b := new Builder.FromBase(base);
    b.Update(reset);
    c := b.Build();
  }

  /** A setter given null records an explicit reset, which the two flags read differently:
      `datesAsEpochMillis` as false and `alignCheckpoints` as true. The constructor taking
      `Boolean`s, by contrast, keeps null as unset. */
  method SetterResetReadsAsDefault() returns (dates: Option<bool>, align: Option<bool>)
    ensures dates == Some(false) && align == Some(true)
    ensures FromBooleans(None, None, None, None).GetAlignCheckpoints() == None
  {
    var b := new Builder();
    b.SetDatesAsEpochMillis(None);
    b.SetAlignCheckpoints(None);
    var c := b.Build();
    dates := c.GetDatesAsEpochMillis();
    align := c.GetAlignCheckpoints();
  }
}
