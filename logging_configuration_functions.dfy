/** The typed configuration reads of the newer revision: a string, a boolean
    (of the section itself, or nominally of a named property), an optional
    Int32 and a defaulted Int64 constrained by sign, and an enum. Each read
    either yields its value or fails with the error the source throws. */
module LoggingConfigurationFunctions {
  import opened Wrappers
  import opened Primitives
  import opened Configuration
  import opened NumberSigns
  import opened Errors

  /** ReadString: the value stored under `prop`, or a missing error naming
      `<path>:<prop>`. */
  function ReadString(conf: Section, prop: string): (r: Result<string, Error>)
    ensures r.Success? <==> conf.Item(prop).Some?
    ensures r.Success? ==> r.value == conf.Item(prop).value
    ensures r.Failure? ==> r.error == MissedProp(conf.path, prop)
  {
    match conf.Item(prop)
    case Some(v) => Success(v)
    case None => Failure(MissedProp(conf.path, prop))
  }

  /** The decision both boolean reads make on a present text: "true" and
      "false" in any letter case, anything else rejected. */
  function BooleanText(text: string): (r: Option<bool>)
    ensures r == Some(true) <==> Lower(text) == "true"
    ensures r == Some(false) <==> Lower(text) == "false"
  {
    var lowered := Lower(text);
    if lowered == "true" then Some(true)
    else if lowered == "false" then Some(false)
    else None
  }

  /** ReadBoolean(defaultValue): decides on the section's own value. An
      absent value gives the default, or a missing error when there is none;
      a text other than true or false fails with the lower-cased text. */
  function ReadBoolean(conf: Section, defaultValue: Option<bool>): (r: Result<bool, Error>)
    ensures conf.Value().None? && defaultValue.Some? ==> r == Success(defaultValue.value)
    ensures conf.Value().None? && defaultValue.None? ==> r == Failure(Missed(conf.path))
    ensures conf.Value().Some? ==>
      match BooleanText(conf.Value().value)
      case Some(b) => r == Success(b)
      case None => r == Failure(NotBoolean(conf.path, Lower(conf.Value().value)))
  {
    match conf.Value()
    case None =>
      if defaultValue.Some? then Success(defaultValue.value) else Failure(Missed(conf.path))
    case Some(v) =>
      match BooleanText(v)
      case Some(b) => Success(b)
      case None => Failure(NotBoolean(conf.path, Lower(v)))
  }

  /** ReadBoolean(propName, defaultValue), as written: it too decides on the
      section's own value, not on the property named `prop`, which only
      appears in its error messages. */
  function ReadBooleanProp(conf: Section, prop: string, defaultValue: Option<bool>): (r: Result<bool, Error>)
    ensures conf.Value().None? && defaultValue.Some? ==> r == Success(defaultValue.value)
    ensures conf.Value().None? && defaultValue.None? ==> r == Failure(MissedProp(conf.path, prop))
    ensures conf.Value().Some? ==>
      match BooleanText(conf.Value().value)
      case Some(b) => r == Success(b)
      case None => r == Failure(NotBooleanProp(conf.path, prop, Lower(conf.Value().value)))
  {
    match conf.Value()
    case None =>
      if defaultValue.Some? then Success(defaultValue.value) else Failure(MissedProp(conf.path, prop))
    case Some(v) =>
      match BooleanText(v)
      case Some(b) => Success(b)
      case None => Failure(NotBooleanProp(conf.path, prop, Lower(v)))
  }

  /** The property named by ReadBooleanProp has no say: storing any value
      under it leaves the result as it was. */
  lemma ReadBooleanPropIgnoresTheProperty(conf: Section, prop: string, v: Option<string>, defaultValue: Option<bool>)
    ensures ReadBooleanProp(conf.WithItem(prop, v), prop, defaultValue) == ReadBooleanProp(conf, prop, defaultValue)
  {
  }

  /** As written, a property stored as "true" under a section without a
      value of its own is reported missing when there is no default. */
  lemma ReadBooleanPropMissesStoredProperty(conf: Section, prop: string)
    requires conf.Value().None?
    ensures conf.WithItem(prop, Some("true")).Item(prop) == Some("true")
    ensures ReadBooleanProp(conf.WithItem(prop, Some("true")), prop, None) == Failure(MissedProp(conf.path, prop))
  {
    ItemAfterWithItem(conf, prop, Some("true"));
  }

  /** ReadBoolean(propName, defaultValue) as evidently intended: it decides
      on `conf[propName]`, as ReadInt32IfExists and ReadInt64 do, with the
      same defaults and errors. */
  function ReadBooleanPropIntended(conf: Section, prop: string, defaultValue: Option<bool>): (r: Result<bool, Error>)
    ensures conf.Item(prop).None? && defaultValue.Some? ==> r == Success(defaultValue.value)
    ensures conf.Item(prop).None? && defaultValue.None? ==> r == Failure(MissedProp(conf.path, prop))
    ensures conf.Item(prop).Some? ==>
      match BooleanText(conf.Item(prop).value)
      case Some(b) => r == Success(b)
      case None => r == Failure(NotBooleanProp(conf.path, prop, Lower(conf.Item(prop).value)))
  {
    match conf.Item(prop)
    case None =>
      if defaultValue.Some? then Success(defaultValue.value) else Failure(MissedProp(conf.path, prop))
    case Some(v) =>
      match BooleanText(v)
      case Some(b) => Success(b)
      case None => Failure(NotBooleanProp(conf.path, prop, Lower(v)))
  }

  /** The intended read returns what was stored under the property, in any
      letter case, whatever the section's own value; and it is the section
      read of the property's own section. */
  lemma ReadBooleanPropIntendedAfterWrite(conf: Section, prop: string, b: bool, text: string,
                                          defaultValue: Option<bool>)
    requires Lower(text) == (if b then "true" else "false")
    ensures ReadBooleanPropIntended(conf.WithItem(prop, Some(text)), prop, defaultValue) == Success(b)
    ensures ReadBooleanPropIntended(conf, prop, defaultValue).Success?
            == ReadBoolean(conf.GetSection(prop), defaultValue).Success?
    ensures ReadBooleanPropIntended(conf, prop, defaultValue).Success? ==>
      ReadBooleanPropIntended(conf, prop, defaultValue).value == ReadBoolean(conf.GetSection(prop), defaultValue).value
  {
    ItemAfterWithItem(conf, prop, Some(text));
  }

  /** The two boolean overloads succeed on the same sections with the same
      value; they differ only in how their errors name the section. */
  lemma BooleanOverloadsAgree(conf: Section, prop: string, defaultValue: Option<bool>)
    ensures ReadBooleanProp(conf, prop, defaultValue).Success? == ReadBoolean(conf, defaultValue).Success?
    ensures ReadBoolean(conf, defaultValue).Success? ==>
      ReadBooleanProp(conf, prop, defaultValue).value == ReadBoolean(conf, defaultValue).value
  {
  }

  /** Writing a boolean's text in any letter case and reading it back gives
      the boolean. */
  lemma ReadBooleanAfterWrite(conf: Section, b: bool, text: string, defaultValue: Option<bool>)
    requires Lower(text) == (if b then "true" else "false")
    ensures ReadBoolean(conf.WithValue(Some(text)), defaultValue) == Success(b)
  {
  }

  /** The number read from `value`, or the error for text that is not a
      number, a number out of range, or a number of the wrong sign. */
  function CheckedInt32(conf: Section, prop: string, value: string, signs: Signs): (r: Result<Int32, Error>)
    ensures r.Success? ==> MatchSign32(r.value, signs) && ParseInt32(value) == Parsed(r.value)
  {
    match ParseInt32(value)
    case FormatError => Failure(NotNumber(conf.path, prop, value))
    case OverflowError => Failure(OutOfRange(conf.path, prop, value))
    case Parsed(n) =>
      assert Int32Min <= n <= Int32Max;
      var number: Int32 := n;
      if MatchSign32(number, signs) then Success(number)
      else Failure(NotMatchSign(conf.path, prop, value, signs))
  }

  function CheckedInt64(conf: Section, prop: string, value: string, signs: Signs): (r: Result<Int64, Error>)
    ensures r.Success? ==> MatchSign64(r.value, signs) && ParseInt64(value) == Parsed(r.value)
  {
    match ParseInt64(value)
    case FormatError => Failure(NotNumber(conf.path, prop, value))
    case OverflowError => Failure(OutOfRange(conf.path, prop, value))
    case Parsed(n) =>
      assert Int64Min <= n <= Int64Max;
      var number: Int64 := n;
      if MatchSign64(number, signs) then Success(number)
      else Failure(NotMatchSign(conf.path, prop, value, signs))
  }

  /** ReadInt32IfExists: nothing, and no error, when `prop` is absent;
      otherwise the checked number. */
  function ReadInt32IfExists(conf: Section, prop: string, signs: Signs): (r: Result<Option<Int32>, Error>)
    ensures conf.Item(prop).None? ==> r == Success(None)
    ensures r.Success? && r.value.Some? ==> MatchSign32(r.value.value, signs)
    ensures conf.Item(prop).Some? ==>
      match CheckedInt32(conf, prop, conf.Item(prop).value, signs)
      case Success(n) => r == Success(Some(n))
      case Failure(e) => r == Failure(e)
  {
    match conf.Item(prop)
    case None => Success(None)
    case Some(v) =>
      match CheckedInt32(conf, prop, v, signs)
      case Success(n) => Success(Some(n))
      case Failure(e) => Failure(e)
  }

  /** ReadInt64: the default, or a missing error when there is none, when
      `prop` is absent; otherwise the checked number. */
  function ReadInt64(conf: Section, prop: string, signs: Signs, defaultValue: Option<Int64>): (r: Result<Int64, Error>)
    ensures conf.Item(prop).None? && defaultValue.Some? ==> r == Success(defaultValue.value)
    ensures conf.Item(prop).None? && defaultValue.None? ==> r == Failure(MissedProp(conf.path, prop))
    ensures conf.Item(prop).Some? ==> r == CheckedInt64(conf, prop, conf.Item(prop).value, signs)
  {
    match conf.Item(prop)
    case None =>
      if defaultValue.Some? then Success(defaultValue.value) else Failure(MissedProp(conf.path, prop))
    case Some(v) => CheckedInt64(conf, prop, v, signs)
  }

  /** A number written in decimal is read back unchanged exactly when its sign
      is allowed; otherwise the read reports the sign mismatch. */
  lemma ReadInt32AfterWrite(conf: Section, prop: string, n: Int32, signs: Signs)
    ensures MatchSign32(n, signs) ==>
      ReadInt32IfExists(conf.WithItem(prop, Some(FormatInteger(n))), prop, signs) == Success(Some(n))
    ensures !MatchSign32(n, signs) ==>
      ReadInt32IfExists(conf.WithItem(prop, Some(FormatInteger(n))), prop, signs)
        == Failure(NotMatchSign(conf.path, prop, FormatInteger(n), signs))
  {
    ItemAfterWithItem(conf, prop, Some(FormatInteger(n)));
    ParseFormatRoundTrip(n, Int32Min, Int32Max);
  }

  lemma ReadInt64AfterWrite(conf: Section, prop: string, n: Int64, signs: Signs, defaultValue: Option<Int64>)
    ensures MatchSign64(n, signs) ==>
      ReadInt64(conf.WithItem(prop, Some(FormatInteger(n))), prop, signs, defaultValue) == Success(n)
    ensures !MatchSign64(n, signs) ==>
      ReadInt64(conf.WithItem(prop, Some(FormatInteger(n))), prop, signs, defaultValue)
        == Failure(NotMatchSign(conf.path, prop, FormatInteger(n), signs))
  {
    ItemAfterWithItem(conf, prop, Some(FormatInteger(n)));
    ParseFormatRoundTrip(n, Int64Min, Int64Max);
  }

  /** Text without digits and digit strings beyond the range fail with two
      different errors, for both integer reads. */
  lemma NotNumberDiffersFromOutOfRange(conf: Section, prop: string, word: string, huge: string, signs: Signs)
    requires forall i :: 0 <= i < |word| ==> !IsDigit(word[i])
    requires |huge| > 0 && AllDigits(huge) && DigitsValue(huge) > Int64Max
    ensures CheckedInt32(conf, prop, word, signs) == Failure(NotNumber(conf.path, prop, word))
    ensures CheckedInt64(conf, prop, word, signs) == Failure(NotNumber(conf.path, prop, word))
    ensures CheckedInt32(conf, prop, huge, signs) == Failure(OutOfRange(conf.path, prop, huge))
    ensures CheckedInt64(conf, prop, huge, signs) == Failure(OutOfRange(conf.path, prop, huge))
  {
    NoDigitIsFormatError(word, Int32Min, Int32Max);
    NoDigitIsFormatError(word, Int64Min, Int64Max);
    DigitsBeyondRangeOverflow(huge, Int32Min, Int32Max);
    DigitsBeyondRangeOverflow(huge, Int64Min, Int64Max);
  }

  /** ReadEnum(defaultValue): decides on the section's own value. A member
      name in any case gives that member; absence gives the default or a
      missing error; other text fails with the text as given. */
  function ReadEnum<T>(conf: Section, members: seq<(string, T)>, defaultValue: Option<T>): (r: Result<T, Error>)
    ensures conf.Value().None? && defaultValue.Some? ==> r == Success(defaultValue.value)
    ensures conf.Value().None? && defaultValue.None? ==> r == Failure(Missed(conf.path))
    ensures conf.Value().Some? ==>
      match EnumTryParse(conf.Value().value, members)
      case Some(t) => r == Success(t)
      case None => r == Failure(InvalidValue(conf.path, conf.Value().value))
  {
    match conf.Value()
    case Some(v) =>
      (match EnumTryParse(v, members)
       case Some(t) => Success(t)
       case None => Failure(InvalidValue(conf.path, v)))
    case None =>
      if defaultValue.Some? then Success(defaultValue.value) else Failure(Missed(conf.path))
  }

  /** ReadEnum(propName, defaultValue): the same decision on the value stored
      under `prop`, with errors naming the property. */
  function ReadEnumProp<T>(conf: Section, prop: string, members: seq<(string, T)>, defaultValue: Option<T>)
    : (r: Result<T, Error>)
    ensures conf.Item(prop).None? && defaultValue.Some? ==> r == Success(defaultValue.value)
    ensures conf.Item(prop).None? && defaultValue.None? ==> r == Failure(MissedProp(conf.path, prop))
    ensures conf.Item(prop).Some? ==>
      match EnumTryParse(conf.Item(prop).value, members)
      case Some(t) => r == Success(t)
      case None => r == Failure(InvalidPropValue(conf.path, prop, conf.Item(prop).value))
  {
    match conf.Item(prop)
    case Some(v) =>
      (match EnumTryParse(v, members)
       case Some(t) => Success(t)
       case None => Failure(InvalidPropValue(conf.path, prop, v)))
    case None =>
      if defaultValue.Some? then Success(defaultValue.value) else Failure(MissedProp(conf.path, prop))
  }

  /** The property form reads what the section form reads on the property's
      own section; only the error wording differs. */
  lemma EnumOverloadsAgree<T>(conf: Section, prop: string, members: seq<(string, T)>, defaultValue: Option<T>)
    ensures ReadEnumProp(conf, prop, members, defaultValue).Success?
        == ReadEnum(conf.GetSection(prop), members, defaultValue).Success?
    ensures ReadEnumProp(conf, prop, members, defaultValue).Success? ==>
      ReadEnumProp(conf, prop, members, defaultValue).value == ReadEnum(conf.GetSection(prop), members, defaultValue).value
  {
  }
}
