/** The typed configuration reads of the older revision: a string, a boolean
    that treats absence as false, and an enum that treats absence as no
    value. Every read looks at the property named `prop`. */
module LegacyLoggingConfigurationFunctions {
  import opened Wrappers
  import opened Primitives
  import opened Configuration
  import opened Errors
  import Current = LoggingConfigurationFunctions

  /** ReadString: the value stored under `prop`, or a missing error naming
      `<path>:<prop>`. */
  function ReadString(conf: Section, prop: string): (r: Result<string, Error>)
    ensures r.Success? <==> conf.Item(prop).Some?
    ensures r.Success? ==> r.value == conf.Item(prop).value
    ensures r.Failure? ==> r.error == MissedProp(conf.path, prop)
  {
    if conf.Item(prop).Some? then Success(conf.Item(prop).value)
    else Failure(MissedProp(conf.path, prop))
  }

  /** Both revisions read strings alike. */
  lemma ReadStringAgreesAcrossRevisions(conf: Section, prop: string)
    ensures ReadString(conf, prop) == Current.ReadString(conf, prop)
  {
  }

  /** ReadBoolean(propName): "true" in any case is true; absence and "false"
      in any case are false; any other text fails with the lower-cased text. */
  function ReadBoolean(conf: Section, prop: string): (r: Result<bool, Error>)
    ensures conf.Item(prop).None? ==> r == Success(false)
    ensures conf.Item(prop).Some? && Lower(conf.Item(prop).value) == "true" ==> r == Success(true)
    ensures conf.Item(prop).Some? && Lower(conf.Item(prop).value) == "false" ==> r == Success(false)
    ensures conf.Item(prop).Some? && Lower(conf.Item(prop).value) != "true" && Lower(conf.Item(prop).value) != "false"
      ==> r == Failure(NotBooleanProp(conf.path, prop, Lower(conf.Item(prop).value)))
  {
    match conf.Item(prop)
    case None => Success(false)
    case Some(v) =>
      var lowered := Lower(v);
      if lowered == "true" then Success(true)
      else if lowered == "false" then Success(false)
      else Failure(NotBooleanProp(conf.path, prop, lowered))
  }

  /** The older boolean read never reports a missing value: it fails only on
      a present text, and then with the not-boolean error. */
  lemma ReadBooleanNeverMisses(conf: Section, prop: string)
    ensures ReadBoolean(conf, prop).Failure? ==>
      conf.Item(prop).Some? && ReadBoolean(conf, prop).error.NotBooleanProp?
  {
  }

  /** The older read is the newer section-form read of the property's own
      section with default false, in value and, below a non-root section, in
      the exact error message. */
  lemma ReadBooleanIsCurrentWithDefaultFalse(conf: Section, prop: string)
    ensures ReadBoolean(conf, prop).Success? == Current.ReadBoolean(conf.GetSection(prop), Some(false)).Success?
    ensures ReadBoolean(conf, prop).Success? ==>
      ReadBoolean(conf, prop).value == Current.ReadBoolean(conf.GetSection(prop), Some(false)).value
    ensures conf.path != "" && ReadBoolean(conf, prop).Failure? ==>
      ReadBoolean(conf, prop).error.Message() == Current.ReadBoolean(conf.GetSection(prop), Some(false)).error.Message()
  {
    var child := conf.GetSection(prop);
    if conf.path != "" && conf.Item(prop).Some? {
      assert child.path == conf.path + ":" + prop;
      NotBooleanMessagesAgree(conf.path, prop, Lower(conf.Item(prop).value));
    }
  }

  /** The property form of the not-boolean error reads as the section form
      for the property's own section. */
  lemma NotBooleanMessagesAgree(path: string, prop: string, value: string)
    ensures NotBooleanProp(path, prop, value).Message() == NotBoolean(path + ":" + prop, value).Message()
  {
    var head, tail := "Expected '", "' to be boolean, but accepted '" + value + "'.";
    assert NotBooleanProp(path, prop, value).Text() == head + path + ":" + prop + "' to be boolean, but accepted '" + value + "'.";
    assert NotBoolean(path + ":" + prop, value).Text() == head + (path + ":" + prop) + "' to be boolean, but accepted '" + value + "'.";
    assert head + path + ":" + prop == head + (path + ":" + prop);
  }

  /** ReadEnum(propName): no value when `prop` is absent; a member name in any
      case gives that member; other text fails with the text as given. */
  function ReadEnum<T>(conf: Section, prop: string, members: seq<(string, T)>): (r: Result<Option<T>, Error>)
    ensures conf.Item(prop).None? ==> r == Success(None)
    ensures conf.Item(prop).Some? ==>
      match EnumTryParse(conf.Item(prop).value, members)
      case Some(t) => r == Success(Some(t))
      case None => r == Failure(InvalidPropValue(conf.path, prop, conf.Item(prop).value))
  {
    match conf.Item(prop)
    case None => Success(None)
    case Some(v) =>
      (match EnumTryParse(v, members)
       case Some(t) => Success(Some(t))
       case None => Failure(InvalidPropValue(conf.path, prop, v)))
  }

  /** The older enum read falls back to a default exactly as the newer
      property-form read given that default does. */
  lemma ReadEnumWithDefaultIsCurrent<T>(conf: Section, prop: string, members: seq<(string, T)>, defaultValue: T)
    ensures (match ReadEnum(conf, prop, members)
             case Success(o) => Success(o.GetOr(defaultValue))
             case Failure(e) => Failure(e))
      == Current.ReadEnumProp(conf, prop, members, Some(defaultValue))
  {
  }
}
