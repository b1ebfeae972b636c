/** Every exception the modelled code throws, as a value, with the exception
    type and the exact message text it carries. */
module Errors {
  import opened Wrappers
  import opened Primitives
  import opened NumberSigns

  /** The three kinds of extension an applier can provide. */
  datatype ExtensionKind = ProfileKind | EnrichmentKind | FilterKind {
    /** How the conflict and not-known messages name the kind. */
    function Noun(): string {
      match this
      case ProfileKind => "profile type"
      case EnrichmentKind => "enrichment"
      case FilterKind => "filter"
    }

    /** The parameter a registry conflict is reported against. */
    function ParamName(): string {
      match this
      case ProfileKind => "profileAppliers"
      case EnrichmentKind => "enrichmentAppliers"
      case FilterKind => "filterAppliers"
    }
  }

  /** How a raw configuration section prints when interpolated into a message:
      its runtime type name, since it does not override ToString. */
  const SectionDisplayText: string := "Microsoft.Extensions.Configuration.ConfigurationSection"

  datatype Error =
    // raised by the typed configuration reads
    | Missed(path: string)
    | MissedProp(path: string, prop: string)
    | InvalidValue(path: string, value: string)
    | InvalidPropValue(path: string, prop: string, value: string)
    | NotBoolean(path: string, value: string)
    | NotBooleanProp(path: string, prop: string, value: string)
    | NotNumber(path: string, prop: string, value: string)
    | OutOfRange(path: string, prop: string, value: string)
    | NotMatchSign(path: string, prop: string, value: string, signs: Signs)
    // raised by the profile view and the file profile
    | MissedOutput(sectionText: string)
    | FilePathEmpty(path: string)
    | FilePathInvalid(path: string, template: string, filePath: string, invalidChar: char, index: nat)
    // raised by the newer pipeline builder
    | SourceNotSpecified(path: string)
    | NotKnown(kind: ExtensionKind, name: string, path: string)
    // raised by the older pipeline builder and the older thread applier
    | LegacyNotKnown(kind: ExtensionKind, path: string, name: string)
    | ThreadNotTrueOrFalse(path: string, value: string)
    // ArgumentException from a registry
    | Conflict(kind: ExtensionKind, name: string, applierType: string, otherType: string)
    // ArgumentException and ArgumentNullException from argument checks
    | PathNullOrEmpty(paramName: string)
    | PathInvalidChar(path: string, invalidChar: char, index: nat, paramName: string)
    | WriteConditionNotValid(condition: int, paramName: string)
    | ArgumentNull(paramName: string)
    // FormatException from String.Format
    | FormatFailure
    | FormatIndexOutOfRange
  {
    function ExceptionType(): string {
      match this
      case Conflict(_, _, _, _) => "ArgumentException"
      case PathNullOrEmpty(_) => "ArgumentException"
      case PathInvalidChar(_, _, _, _) => "ArgumentException"
      case WriteConditionNotValid(_, _) => "ArgumentException"
      case ArgumentNull(_) => "ArgumentNullException"
      case FormatFailure => "FormatException"
      case FormatIndexOutOfRange => "FormatException"
      case _ => "LoggingConfigurationException"
    }

    /** The parameter name an ArgumentException carries. */
    function ParamName(): Option<string> {
      match this
      case Conflict(kind, _, _, _) => Some(kind.ParamName())
      case PathNullOrEmpty(p) => Some(p)
      case PathInvalidChar(_, _, _, p) => Some(p)
      case WriteConditionNotValid(_, p) => Some(p)
      case ArgumentNull(p) => Some(p)
      case _ => None
    }

    /** The message text the exception was created with. */
    function Text(): string {
      match this
      case Missed(path) => "Missed '" + path + "'."
      case MissedProp(path, prop) => "Missed '" + path + ":" + prop + "'."
      case InvalidValue(path, value) => "'" + path + "' has invalid value '" + value + "'."
      case InvalidPropValue(path, prop, value) =>
        "'" + path + "':" + prop + " has invalid value '" + value + "'."
      case NotBoolean(path, value) =>
        "Expected '" + path + "' to be boolean, but accepted '" + value + "'."
      case NotBooleanProp(path, prop, value) =>
        "Expected '" + path + ":" + prop + "' to be boolean, but accepted '" + value + "'."
      case NotNumber(path, prop, value) =>
        "Expected '" + path + ":" + prop + "' to be a number but accepted '" + value + "'."
      case OutOfRange(path, prop, value) =>
        "'" + path + ":" + prop + "' = '" + value + "' is out of range."
      case NotMatchSign(path, prop, value, signs) =>
        "'" + path + ":" + prop + "' = '" + value + "' is not " + SignsText(signs) + "."
      case MissedOutput(sectionText) => "'Missed " + sectionText + ":output'."
      case FilePathEmpty(path) => "'" + path + ":path' is empty."
      case FilePathInvalid(path, template, filePath, c, i) =>
        "File path '" + filePath + "' based on template '" + template + "' from '" + path
        + ":path' contains invalid character '" + [c] + "' at " + FormatNat(i)
      case SourceNotSpecified(path) => "'" + path + "' -- source to be overriden is not specified."
      case NotKnown(kind, name, path) =>
        if kind == ProfileKind then "Profile type '" + name + "' of profile '" + path + "' is not known."
        else "Name '" + name + "' of " + kind.Noun() + " '" + path + "' is not known."
      case LegacyNotKnown(kind, path, name) =>
        "'" + path + ":type': " + kind.Noun() + " '" + name + "' is not known."
      case ThreadNotTrueOrFalse(path, value) =>
        "Expected value '" + path + "' to be true or false, but accepted '" + value + "'."
      case Conflict(kind, name, applierType, otherType) =>
        applierType + " cannot handle " + kind.Noun() + " '" + name + "' because it's already handled by "
        + otherType + "."
      case PathNullOrEmpty(_) => "Path is null or empty."
      case PathInvalidChar(path, c, i, _) =>
        "Path '" + path + "' contains invalid character '" + [c] + "' at " + FormatNat(i) + "."
      case WriteConditionNotValid(c, _) => "Crash log write condition " + FormatInteger(c) + " is not valid."
      case ArgumentNull(_) => "Value cannot be null."
      case FormatFailure => "Input string was not in a correct format."
      case FormatIndexOutOfRange =>
        "Index (zero based) must be greater than or equal to zero and less than the size of the argument list."
    }

    /** Exception.Message: an argument exception appends its parameter name. */
    function Message(): (m: string)
      ensures ParamName().None? ==> m == Text()
    {
      match ParamName()
      case Some(p) => Text() + " (Parameter '" + p + "')"
      case None => Text()
    }
  }
}
