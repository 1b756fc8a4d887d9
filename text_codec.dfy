/** The document form of the settings. Printing emits only fields that hold a real value,
    so both "unset" and "reset" print as nothing. Parsing maps each known key on its own:
    an absent key is null, an explicit `null` is the reset value, `true` is 1 and `false`
    is 0. A strict parser refuses unknown keys; a lenient one ignores them. */
module TextCodec {
  import opened Wrappers
  import opened Wire
  import opened Settings

  const MaxPageSearchSizeField: string := "max_page_search_size"
  const DocsPerSecondField: string := "docs_per_second"
  const DatesAsEpochMillisField: string := "dates_as_epoch_millis"
  const AlignCheckpointsField: string := "align_checkpoints"

  const KnownFields: set<string> :=
    {MaxPageSearchSizeField, DocsPerSecondField, DatesAsEpochMillisField, AlignCheckpointsField}

  /** A field value in a document. A whole number is carried unbounded so that one too
      large for an `int` can be refused. */
  datatype Token = NullToken | BoolToken(b: bool) | IntToken(i: int) | FloatToken(f: FloatBits)

  /** A parsed document: each key with its value token. */
  type Document = map<string, Token>

  datatype ParseError = UnknownFields(names: set<string>) | BadValue(field: string)

  /** The value of the first field named `name` in an emitted field list. */
  function Lookup(fields: seq<(string, Token)>, name: string): Option<Token> {
    if |fields| == 0 then None
    else if fields[0].0 == name then Some(fields[0].1)
    else Lookup(fields[1..], name)
  }

  lemma {:induction false} LookupAppend(a: seq<(string, Token)>, b: seq<(string, Token)>, name: string)
    ensures Lookup(a + b, name) == if Lookup(a, name).Some? then Lookup(a, name) else Lookup(b, name)
  {
    if |a| > 0 {
      assert (a + b)[1..] == a[1..] + b;
      LookupAppend(a[1..], b, name);
    } else {
      assert a + b == b;
    }
  }

  /** The document a reader sees in an emitted field list. */
  function AsDocument(fields: seq<(string, Token)>): (d: Document)
    ensures forall name :: Lookup(fields, name) == if name in d then Some(d[name]) else None
  {
    if |fields| == 0 then map[]
    else AsDocument(fields[1..])[fields[0].0 := fields[0].1]
  }

  /** Every key of the list, once. */
  predicate DistinctNames(fields: seq<(string, Token)>) {
    forall i, j :: 0 <= i < j < |fields| ==> fields[i].0 != fields[j].0
  }

  /** Position of a known key in the order the fields are declared and printed. */
  function FieldRank(name: string): nat {
    if name == MaxPageSearchSizeField then 0
    else if name == DocsPerSecondField then 1
    else if name == DatesAsEpochMillisField then 2
    else if name == AlignCheckpointsField then 3
    else 4
  }

  /** The keys of the list come in declaration order. */
  predicate InFieldOrder(fields: seq<(string, Token)>) {
    forall i, j :: 0 <= i < j < |fields| ==> FieldRank(fields[i].0) < FieldRank(fields[j].0)
  }

  /** One emitted field, present only when the raw value is set and not the reset value. */
  function IntField(name: string, raw: Option<Int32>, sentinel: Int32): (r: seq<(string, Token)>)
    ensures |r| <= 1 && forall i :: 0 <= i < |r| ==> r[i].0 == name
    ensures Lookup(r, name) == match View(raw, sentinel)
                               case Value(v) => Some(IntToken(v))
                               case _ => None
  {
    if raw != None && raw.value != sentinel then [(name, IntToken(raw.value))] else []
  }

  function FloatField(name: string, raw: Option<FloatBits>, sentinel: FloatBits): (r: seq<(string, Token)>)
    ensures |r| <= 1 && forall i :: 0 <= i < |r| ==> r[i].0 == name
    ensures Lookup(r, name) == match View(raw, sentinel)
                               case Value(v) => Some(FloatToken(v))
                               case _ => None
  {
    if raw != None && raw.value != sentinel then [(name, FloatToken(raw.value))] else []
  }

  function BoolField(name: string, raw: Option<Int32>, sentinel: Int32): (r: seq<(string, Token)>)
    ensures |r| <= 1 && forall i :: 0 <= i < |r| ==> r[i].0 == name
    ensures Lookup(r, name) == match View(raw, sentinel)
                               case Value(v) => Some(BoolToken(v > 0))
                               case _ => None
  {
    if raw != None && raw.value != sentinel then [(name, BoolToken(raw.value > 0))] else []
  }

  /** A field list holding at most one field, named `name`, has nothing under other names. */
  lemma LookupOther(r: seq<(string, Token)>, name: string, other: string)
    requires |r| <= 1 && forall i :: 0 <= i < |r| ==> r[i].0 == name
    requires other != name
    ensures Lookup(r, other) == None
  {
  }

  /** Joining ordered field lists, the first ranked wholly before the second, keeps the
      declaration order. */
  lemma ConcatInOrder(a: seq<(string, Token)>, b: seq<(string, Token)>)
    requires InFieldOrder(a) && InFieldOrder(b)
    requires forall i, j :: 0 <= i < |a| && 0 <= j < |b| ==> FieldRank(a[i].0) < FieldRank(b[j].0)
    ensures InFieldOrder(a + b)
  {
  }

  /** `toXContent`: a key appears exactly for a field holding a real value; the flags print
      as booleans (`raw > 0`); only the four known keys are written, each at most once and
      in declaration order. */
  function ToXContent(c: SettingsConfig): (fields: seq<(string, Token)>)
    ensures Lookup(fields, MaxPageSearchSizeField) ==
              match View(c.maxPageSearchSize, DefaultMaxPageSearchSize)
              case Value(v) => Some(IntToken(v))
              case _ => None
    ensures Lookup(fields, DocsPerSecondField) ==
              match View(c.docsPerSecond, DefaultDocsPerSecond)
              case Value(v) => Some(FloatToken(v))
              case _ => None
    ensures Lookup(fields, DatesAsEpochMillisField) ==
              match View(c.datesAsEpochMillis, DefaultDatesAsEpochMillis)
              case Value(v) => Some(BoolToken(v > 0))
              case _ => None
    ensures Lookup(fields, AlignCheckpointsField) ==
              match View(c.alignCheckpoints, DefaultAlignCheckpoints)
              case Value(v) => Some(BoolToken(v > 0))
              case _ => None
    ensures forall i :: 0 <= i < |fields| ==> fields[i].0 in KnownFields
    ensures InFieldOrder(fields)
    ensures DistinctNames(fields)
  {
    var a := IntField(MaxPageSearchSizeField, c.maxPageSearchSize, DefaultMaxPageSearchSize);
    var b := FloatField(DocsPerSecondField, c.docsPerSecond, DefaultDocsPerSecond);
    var d := BoolField(DatesAsEpochMillisField, c.datesAsEpochMillis, DefaultDatesAsEpochMillis);
    var e := BoolField(AlignCheckpointsField, c.alignCheckpoints, DefaultAlignCheckpoints);
    FourFields(a, b, d, e);
    a + b + d + e
  }

  /** The facts ToXContent needs about joining its four one-field lists. */
  lemma FourFields(a: seq<(string, Token)>, b: seq<(string, Token)>, d: seq<(string, Token)>,
                   e: seq<(string, Token)>)
    requires |a| <= 1 && forall i :: 0 <= i < |a| ==> a[i].0 == MaxPageSearchSizeField
    requires |b| <= 1 && forall i :: 0 <= i < |b| ==> b[i].0 == DocsPerSecondField
    requires |d| <= 1 && forall i :: 0 <= i < |d| ==> d[i].0 == DatesAsEpochMillisField
    requires |e| <= 1 && forall i :: 0 <= i < |e| ==> e[i].0 == AlignCheckpointsField
    ensures Lookup(a + b + d + e, MaxPageSearchSizeField) == Lookup(a, MaxPageSearchSizeField)
    ensures Lookup(a + b + d + e, DocsPerSecondField) == Lookup(b, DocsPerSecondField)
    ensures Lookup(a + b + d + e, DatesAsEpochMillisField) == Lookup(d, DatesAsEpochMillisField)
    ensures Lookup(a + b + d + e, AlignCheckpointsField) == Lookup(e, AlignCheckpointsField)
    ensures forall i :: 0 <= i < |a + b + d + e| ==> (a + b + d + e)[i].0 in KnownFields
    ensures InFieldOrder(a + b + d + e)
  {
    var m, p, q, t := MaxPageSearchSizeField, DocsPerSecondField, DatesAsEpochMillisField, AlignCheckpointsField;
    LookupOther(a, m, p); LookupOther(a, m, q); LookupOther(a, m, t);
    LookupOther(b, p, m); LookupOther(b, p, q); LookupOther(b, p, t);
    LookupOther(d, q, m); LookupOther(d, q, p); LookupOther(d, q, t);
    LookupOther(e, t, m); LookupOther(e, t, p); LookupOther(e, t, q);
    LookupFour(a, b, d, e, m);
    LookupFour(a, b, d, e, p);
    LookupFour(a, b, d, e, q);
    LookupFour(a, b, d, e, t);
    ConcatInOrder(a, b);
    ConcatInOrder(a + b, d);
    ConcatInOrder(a + b + d, e);
  }

  lemma LookupFour(a: seq<(string, Token)>, b: seq<(string, Token)>, d: seq<(string, Token)>,
                   e: seq<(string, Token)>, name: string)
    ensures Lookup(a + b + d + e, name) ==
              if Lookup(a, name).Some? then Lookup(a, name)
              else if Lookup(b, name).Some? then Lookup(b, name)
              else if Lookup(d, name).Some? then Lookup(d, name)
              else Lookup(e, name)
  {
    LookupAppend(a + b + d, e, name);
    LookupAppend(a + b, d, name);
    LookupAppend(a, b, name);
  }

  /** `declareIntOrNull`: an explicit `null` gives `nullValue`; a number must fit an `int`. */
  function ParseIntField(doc: Document, name: string, nullValue: Int32): (r: Result<Option<Int32>, ParseError>)
    ensures name !in doc ==> r == Success(None)
    ensures name in doc && doc[name] == NullToken ==> r == Success(Some(nullValue))
    ensures name in doc && doc[name].IntToken? && -0x8000_0000 <= doc[name].i < 0x8000_0000 ==>
              r == Success(Some(doc[name].i))
    ensures r.Failure? <==> name in doc && !doc[name].NullToken?
                            && !(doc[name].IntToken? && -0x8000_0000 <= doc[name].i < 0x8000_0000)
  {
    if name !in doc then Success(None)
    else match doc[name]
      case NullToken => Success(Some(nullValue))
      case IntToken(i) =>
        if -0x8000_0000 <= i < 0x8000_0000 then Success(Some(i)) else Failure(BadValue(name))
      case _ => Failure(BadValue(name))
  }

  /** `declareFloatOrNull`: an explicit `null` gives `nullValue`, a float gives itself and
      a whole number is converted to the `float` of the same value. */
  function ParseFloatField(doc: Document, name: string, nullValue: FloatBits): (r: Result<Option<FloatBits>, ParseError>)
    ensures name !in doc ==> r == Success(None)
    ensures name in doc && doc[name] == NullToken ==> r == Success(Some(nullValue))
    ensures name in doc && doc[name].FloatToken? ==> r == Success(Some(doc[name].f))
    ensures name in doc && doc[name].IntToken? && -ExactFloatIntBound <= doc[name].i <= ExactFloatIntBound ==>
              r.Success? && r.value.Some? && ExponentBits(r.value.value) != 0xFF
              && FloatValue(r.value.value) == doc[name].i as real
              && (r.value.value == 0 <==> doc[name].i == 0)
    ensures r.Failure? <==> name in doc && (doc[name].BoolToken?
                            || (doc[name].IntToken? && !(-ExactFloatIntBound <= doc[name].i <= ExactFloatIntBound)))
  {
    if name !in doc then Success(None)
    else match doc[name]
      case NullToken => Success(Some(nullValue))
      case FloatToken(f) => Success(Some(f))
      case IntToken(i) =>
        if -ExactFloatIntBound <= i <= ExactFloatIntBound then Success(Some(IntToFloat(i)))
        else Failure(BadValue(name))
      case BoolToken(_) => Failure(BadValue(name))
  }

  /** The custom boolean-or-null field parser: an explicit `null` gives `nullValue`, true
      is 1 and false is 0. */
  function ParseFlagField(doc: Document, name: string, nullValue: Int32): (r: Result<Option<Int32>, ParseError>)
    ensures name !in doc ==> r == Success(None)
    ensures name in doc && doc[name] == NullToken ==> r == Success(Some(nullValue))
    ensures name in doc && doc[name].BoolToken? ==>
              r.Success? && r.value.Some? && r.value.value in {0, 1}
              && (r.value.value > 0 <==> doc[name].b)
    ensures r.Failure? <==> name in doc && !doc[name].NullToken? && !doc[name].BoolToken?
  {
    if name !in doc then Success(None)
    else match doc[name]
      case NullToken => Success(Some(nullValue))
      case BoolToken(b) => Success(Some(if b then 1 else 0))
      case _ => Failure(BadValue(name))
  }

  /** `fromXContent` with the strict or the lenient parser. When several things are wrong,
      unknown keys are reported first, then the known fields in declaration order. */
  function FromXContent(doc: Document, lenient: bool): (r: Result<SettingsConfig, ParseError>)
    ensures !lenient && !(doc.Keys <= KnownFields) ==> r == Failure(UnknownFields(doc.Keys - KnownFields))
    ensures r.Success? <==>
              (lenient || doc.Keys <= KnownFields)
              && ParseIntField(doc, MaxPageSearchSizeField, DefaultMaxPageSearchSize).Success?
              && ParseFloatField(doc, DocsPerSecondField, DefaultDocsPerSecond).Success?
              && ParseFlagField(doc, DatesAsEpochMillisField, DefaultDatesAsEpochMillis).Success?
              && ParseFlagField(doc, AlignCheckpointsField, DefaultAlignCheckpoints).Success?
    ensures r.Success? ==>
              (MaxPageSearchSizeField !in doc <==> r.value.maxPageSearchSize.None?)
              && (DocsPerSecondField !in doc <==> r.value.docsPerSecond.None?)
              && (DatesAsEpochMillisField !in doc <==> r.value.datesAsEpochMillis.None?)
              && (AlignCheckpointsField !in doc <==> r.value.alignCheckpoints.None?)
  {
    if !lenient && !(doc.Keys <= KnownFields) then Failure(UnknownFields(doc.Keys - KnownFields))
    else
      var size :- ParseIntField(doc, MaxPageSearchSizeField, DefaultMaxPageSearchSize);
      var docs :- ParseFloatField(doc, DocsPerSecondField, DefaultDocsPerSecond);
      var dates :- ParseFlagField(doc, DatesAsEpochMillisField, DefaultDatesAsEpochMillis);
      var align :- ParseFlagField(doc, AlignCheckpointsField, DefaultAlignCheckpoints);
      Success(SettingsConfig(size, docs, dates, align))
  }

  /** What each known key of any successfully parsed document becomes: an explicit `null`
      is the field's reset value, `true`/`false` are 1/0, and a number is itself, a whole
      number given for the throttle becoming the `float` of that value. */
  lemma FromXContentFieldMapping(doc: Document, lenient: bool)
    requires FromXContent(doc, lenient).Success?
    ensures var c := FromXContent(doc, lenient).value;
            (MaxPageSearchSizeField in doc && doc[MaxPageSearchSizeField] == NullToken ==>
               c.maxPageSearchSize == Some(DefaultMaxPageSearchSize))
            && (MaxPageSearchSizeField in doc && doc[MaxPageSearchSizeField].IntToken? ==>
                  c.maxPageSearchSize == Some(doc[MaxPageSearchSizeField].i))
            && (DocsPerSecondField in doc && doc[DocsPerSecondField] == NullToken ==>
                  c.docsPerSecond == Some(DefaultDocsPerSecond))
            && (DocsPerSecondField in doc && doc[DocsPerSecondField].FloatToken? ==>
                  c.docsPerSecond == Some(doc[DocsPerSecondField].f))
            && (DocsPerSecondField in doc && doc[DocsPerSecondField].IntToken? ==>
                  c.docsPerSecond.Some? && FloatValue(c.docsPerSecond.value) == doc[DocsPerSecondField].i as real
                  && (c.docsPerSecond.value == 0 <==> doc[DocsPerSecondField].i == 0))
            && (DatesAsEpochMillisField in doc && doc[DatesAsEpochMillisField] == NullToken ==>
                  c.datesAsEpochMillis == Some(DefaultDatesAsEpochMillis))
            && (DatesAsEpochMillisField in doc && doc[DatesAsEpochMillisField].BoolToken? ==>
                  c.datesAsEpochMillis == Some(if doc[DatesAsEpochMillisField].b then 1 else 0))
            && (AlignCheckpointsField in doc && doc[AlignCheckpointsField] == NullToken ==>
                  c.alignCheckpoints == Some(DefaultAlignCheckpoints))
            && (AlignCheckpointsField in doc && doc[AlignCheckpointsField].BoolToken? ==>
                  c.alignCheckpoints == Some(if doc[AlignCheckpointsField].b then 1 else 0))
  {
  }

  /** What survives printing and re-parsing one raw field: a real value is kept, both the
      unset and the reset state come back unset. */
  function Shown<T(==)>(raw: Option<T>, sentinel: T): Option<T> {
    match View(raw, sentinel)
    case Value(v) => Some(v)
    case _ => None
  }

  /** What survives of a flag: its truth value as 0 or 1, or unset. */
  function ShownFlag(raw: Option<Int32>, sentinel: Int32): Option<Int32> {
    match View(raw, sentinel)
    case Value(v) => Some(if v > 0 then 1 else 0)
    case _ => None
  }

  /** The settings as the document form keeps them. */
  function TextView(c: SettingsConfig): SettingsConfig {
    SettingsConfig(
      Shown(c.maxPageSearchSize, DefaultMaxPageSearchSize),
      Shown(c.docsPerSecond, DefaultDocsPerSecond),
      ShownFlag(c.datesAsEpochMillis, DefaultDatesAsEpochMillis),
      ShownFlag(c.alignCheckpoints, DefaultAlignCheckpoints))
  }

  /** Printing and re-parsing (with either parser) yields exactly the document view. */
  lemma TextRoundTrip(c: SettingsConfig, lenient: bool)
    ensures FromXContent(AsDocument(ToXContent(c)), lenient) == Success(TextView(c))
  {
    var fields := ToXContent(c);
    var doc := AsDocument(fields);
    assert doc.Keys <= KnownFields by {
      forall name | name in doc ensures name in KnownFields {
        LookupFindsKey(fields, name);
      }
    }
    assert Lookup(fields, MaxPageSearchSizeField) == if MaxPageSearchSizeField in doc then Some(doc[MaxPageSearchSizeField]) else None;
    assert Lookup(fields, DocsPerSecondField) == if DocsPerSecondField in doc then Some(doc[DocsPerSecondField]) else None;
    assert Lookup(fields, DatesAsEpochMillisField) == if DatesAsEpochMillisField in doc then Some(doc[DatesAsEpochMillisField]) else None;
    assert Lookup(fields, AlignCheckpointsField) == if AlignCheckpointsField in doc then Some(doc[AlignCheckpointsField]) else None;
  }

  lemma {:induction false} LookupFindsKey(fields: seq<(string, Token)>, name: string)
    requires Lookup(fields, name).Some?
    ensures exists i :: 0 <= i < |fields| && fields[i].0 == name
  {
    if fields[0].0 != name {
      LookupFindsKey(fields[1..], name);
      var i :| 0 <= i < |fields[1..]| && fields[1..][i].0 == name;
      assert fields[i + 1].0 == name;
    }
  }

  /** Settings with no reset value and flags in {0, 1} come back equal. */
  lemma TextRoundTripExact(c: SettingsConfig, lenient: bool)
    requires !c.HasReset()
    requires c.datesAsEpochMillis.Some? ==> c.datesAsEpochMillis.value in {0, 1}
    requires c.alignCheckpoints.Some? ==> c.alignCheckpoints.value in {0, 1}
    ensures FromXContent(AsDocument(ToXContent(c)), lenient) == Success(c)
  {
    TextRoundTrip(c, lenient);
  }

  /** A field holding the reset value comes back unset: the document form cannot tell
      "reset" from "unset". */
  lemma TextLosesReset(c: SettingsConfig, lenient: bool)
    ensures var r := FromXContent(AsDocument(ToXContent(c)), lenient);
            r.Success?
            && (c.maxPageSearchSize == Some(DefaultMaxPageSearchSize) ==> r.value.maxPageSearchSize == None)
            && (c.docsPerSecond == Some(DefaultDocsPerSecond) ==> r.value.docsPerSecond == None)
            && (c.datesAsEpochMillis == Some(DefaultDatesAsEpochMillis) ==> r.value.datesAsEpochMillis == None)
            && (c.alignCheckpoints == Some(DefaultAlignCheckpoints) ==> r.value.alignCheckpoints == None)
  {
    TextRoundTrip(c, lenient);
  }

  /** The lenient parser reads a document as the strict one reads its known keys. */
  lemma LenientIgnoresUnknown(doc: Document)
    ensures FromXContent(doc, true) == FromXContent(map name | name in doc && name in KnownFields :: doc[name], false)
  {
  }

  /** `{"max_page_search_size": 500, "align_checkpoints": null}` parses to page size 500 and
      a reset `alignCheckpoints`, which reads as true; printing it again gives back only
      the page size. */
  lemma ParsePrintExample(lenient: bool)
    ensures var doc := map[MaxPageSearchSizeField := IntToken(500), AlignCheckpointsField := NullToken];
            var r := FromXContent(doc, lenient);
            r == Success(SettingsConfig(Some(500), None, None, Some(DefaultAlignCheckpoints)))
            && r.value.GetAlignCheckpoints() == Some(true)
            && ToXContent(r.value) == [(MaxPageSearchSizeField, IntToken(500))]
  {
  }

  /** `{"docs_per_second": 100}` parses to `100.0f` (bit pattern 0x42C80000), and
      `{"docs_per_second": -1}` to `-1.0f`, the reset value. */
  lemma WholeNumberThrottleExample(lenient: bool)
    ensures FromXContent(map[DocsPerSecondField := IntToken(100)], lenient)
            == Success(Unconfigured().(docsPerSecond := Some(0x42C8_0000)))
    ensures FromXContent(map[DocsPerSecondField := IntToken(-1)], lenient)
            == Success(Unconfigured().(docsPerSecond := Some(DefaultDocsPerSecond)))
  {
    assert Log2(100) == 6;
    Pow2Constants();
    assert IntToFloat(100) == 0x42C8_0000;
    assert IntToFloat(-1) == DefaultDocsPerSecond;
  }

  /** `{"unknown_field": 1}` is refused by the strict parser and read as nothing configured
      by the lenient one. */
  lemma UnknownFieldExample()
    ensures FromXContent(map["unknown_field" := IntToken(1)], false).Failure?
    ensures FromXContent(map["unknown_field" := IntToken(1)], true) == Success(Unconfigured())
  {
    var doc := map["unknown_field" := IntToken(1)];
    assert "unknown_field" in doc.Keys - KnownFields;
  }
}
