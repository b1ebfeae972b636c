# KorneiDontsov.Logging in Dafny

KorneiDontsov.Logging is a C# library layered over Serilog. Its core parts
are:

- a builder that assembles a Serilog logger from an `IConfiguration` section
  (`minLevels`, `profiles`, `enrichments`, `filters`), using pluggable
  profile, enrichment and filter appliers;
- a set of typed configuration readers (strings, booleans, checked 32- and
  64-bit integers with a permitted set of signs, enums);
- `ConfiguredLogger` and `ConfiguredLoggerFactory`, which install the built
  logger as Serilog's global `Log.Logger` and restore the previous one when
  disposed;
- `AotLogger`, `AotLog` and `Logger<TSource>`, wrappers that route writes
  with one to three property values to a concrete "fast" `Serilog.Core.Logger`
  when one is available;
- `CrashLogger`, a guard for unhandled exceptions that writes a Fatal record
  to the global logger and, depending on its options, to an emergency logger
  writing to the console and a crash file.

The repository holds two revisions of the configuration code: an older one
(`configured/...`) and a newer one (`loggers/configured/...`). Each is
modelled in modules of its own (the older ones are prefixed `Legacy`, except
`ConfiguredLoggerFactories`, which only exists in the older revision), and
lemmas relate the two where they overlap.

Serilog and Microsoft.Extensions.Configuration are not part of the repository.
Their observable behaviour is stood in for by small models:

- `Serilog` models levels, an append-only trace of configuration steps
  (`LoggerConfiguration.ops`), concrete loggers, unknown `ILogger`
  implementations, the global `Log` slot and `ConfiguredLogger`. The last of
  these is kept beside the Serilog types because `ILogger` has it as a case.
- `Configuration` models configuration sections: a tree of keyed nodes,
  case-insensitive lookup, paths joined with ':'.
- `CompositeFormat` models `String.Format` with positional items and `{{`/`}}`
  escapes.
- `DateTimes` models the fixed-width date-time format strings.
- `Primitives` models .NET integer parsing, `ToLowerInvariant` on ASCII,
  `Enum.TryParse` by name, and the platform's path rules (a `PathPlatform`
  parameter).

An exception is an `Error` value. An operation that can throw returns a
`Result` or an `Option<Error>`. An operation that configures Serilog appends
`Op` values to a `LoggerConfiguration`.

The model follows the code as written, including where the code evidently
departs from what its authors meant (the boolean readers, for one, report
the lower-cased text in their errors, as the code does). Five departures are listed under
"## Findings". For each, the operations model what the code does, and a
separate member states the evidently intended behaviour with its property
proved:

- `ReadBoolean(propName, ...)` decides on the section's own value, not on
  the named property (`ReadBooleanProp`; intended:
  `ReadBooleanPropIntended`);
- `CreateCrashLoggerIfRequired` tests `!(writeToConsole & writeToFile)`, so
  an emergency logger is built only when both outputs are wanted
  (`ShouldCreate`; intended: `ShouldCreateIntended`);
- the crash worker caches the application name unescaped in a format
  string, stamps crash files with the 12-hour "hh" clock, and reports path
  errors under the parameter name "path" (`TemplateAsWritten`,
  `CrashFileNameAsWritten`, `ValidatePathAsWritten`; intended: `Template`,
  `CrashFileName`, `ValidatePath`).

Time (`DateTimeOffset.Now`, the launch timestamp), `AppDomain.FriendlyName`,
`AppContext.BaseDirectory` and the platform's path functions are parameters.

## Model

| member | source | states |
|---|---|---|
| LoggingConfigurationFunctions.ReadString | src/libs/KorneiDontsov.Logging/loggers/configured/LoggingConfigurationFunctions.cs:39-40 | succeeds exactly when the property exists, with its text; otherwise the missed-property error naming section path and property |
| LoggingConfigurationFunctions.BooleanText | src/libs/KorneiDontsov.Logging/loggers/configured/LoggingConfigurationFunctions.cs:48-50 | gives true exactly for "true" and false exactly for "false", in any letter case |
| LoggingConfigurationFunctions.ReadBoolean | src/libs/KorneiDontsov.Logging/loggers/configured/LoggingConfigurationFunctions.cs:43-54 | an absent value gives the default, or the missed error without one; true/false text in any case gives the boolean; other text fails with the lower-cased text |
| LoggingConfigurationFunctions.ReadBooleanProp | src/libs/KorneiDontsov.Logging/loggers/configured/LoggingConfigurationFunctions.cs:57-72 | the same decisions, made on the section's own value, with errors that name the property |
| LoggingConfigurationFunctions.ReadBooleanPropIgnoresTheProperty | src/libs/KorneiDontsov.Logging/loggers/configured/LoggingConfigurationFunctions.cs:57-72 | writing any value under the named property leaves the result unchanged |
| LoggingConfigurationFunctions.ReadBooleanPropMissesStoredProperty | src/libs/KorneiDontsov.Logging/loggers/configured/LoggingConfigurationFunctions.cs:66-69 | as written, "true" stored under the property of a section without a value, and no default, gives the missed-property error |
| LoggingConfigurationFunctions.ReadBooleanPropIntended | src/libs/KorneiDontsov.Logging/loggers/configured/LoggingConfigurationFunctions.cs:57-72 | the intended read: the decisions and errors of the property overload, made on the named property's value |
| LoggingConfigurationFunctions.ReadBooleanPropIntendedAfterWrite | src/libs/KorneiDontsov.Logging/loggers/configured/LoggingConfigurationFunctions.cs:57-72 | the intended read gives back a boolean text stored under the property, in any case, and agrees with the section read of the property's own section |
| LoggingConfigurationFunctions.BooleanOverloadsAgree | src/libs/KorneiDontsov.Logging/loggers/configured/LoggingConfigurationFunctions.cs:43-72 | both boolean overloads succeed on the same sections with the same value |
| LoggingConfigurationFunctions.ReadBooleanAfterWrite | src/libs/KorneiDontsov.Logging/loggers/configured/LoggingConfigurationFunctions.cs:43-54 | a boolean written as text in any case reads back as that boolean |
| LoggingConfigurationFunctions.CheckedInt32 | src/libs/KorneiDontsov.Logging/loggers/configured/LoggingConfigurationFunctions.cs:81-95 | a success is the parsed 32-bit value and has a permitted sign |
| LoggingConfigurationFunctions.CheckedInt64 | src/libs/KorneiDontsov.Logging/loggers/configured/LoggingConfigurationFunctions.cs:107-121 | a success is the parsed 64-bit value and has a permitted sign |
| LoggingConfigurationFunctions.ReadInt32IfExists | src/libs/KorneiDontsov.Logging/loggers/configured/LoggingConfigurationFunctions.cs:74-97 | an absent property gives no value; a present one is the checked 32-bit read, whose value has a permitted sign |
| LoggingConfigurationFunctions.ReadInt64 | src/libs/KorneiDontsov.Logging/loggers/configured/LoggingConfigurationFunctions.cs:99-123 | an absent property gives the default, or the missed-property error; a present one is the checked 64-bit read |
| LoggingConfigurationFunctions.ReadInt32AfterWrite | src/libs/KorneiDontsov.Logging/loggers/configured/LoggingConfigurationFunctions.cs:74-97 | any Int32 written in decimal reads back as itself when its sign is permitted, and otherwise fails with the not-matching-sign error |
| LoggingConfigurationFunctions.ReadInt64AfterWrite | src/libs/KorneiDontsov.Logging/loggers/configured/LoggingConfigurationFunctions.cs:99-123 | the same round trip for every Int64 |
| LoggingConfigurationFunctions.NotNumberDiffersFromOutOfRange | src/libs/KorneiDontsov.Logging/loggers/configured/LoggingConfigurationFunctions.cs:74-123 | text without digits is the not-a-number error, and digits beyond the range are the out-of-range error, in both widths |
| LoggingConfigurationFunctions.ReadEnum | src/libs/KorneiDontsov.Logging/loggers/configured/LoggingConfigurationFunctions.cs:126-132 | an absent value gives the default or the missed error; a member name in any case gives that member; other text is the invalid-value error |
| LoggingConfigurationFunctions.ReadEnumProp | src/libs/KorneiDontsov.Logging/loggers/configured/LoggingConfigurationFunctions.cs:135-141 | the same for the named property |
| LoggingConfigurationFunctions.EnumOverloadsAgree | src/libs/KorneiDontsov.Logging/loggers/configured/LoggingConfigurationFunctions.cs:126-141 | reading the property and reading the property's own section agree in success and value |
| LegacyLoggingConfigurationFunctions.ReadString | src/libs/KorneiDontsov.Logging/configured/LoggingConfigurationFunctions.cs:11-17 | succeeds exactly when the property exists, with its text; otherwise the missed-property error |
| LegacyLoggingConfigurationFunctions.ReadStringAgreesAcrossRevisions | src/libs/KorneiDontsov.Logging/configured/LoggingConfigurationFunctions.cs:11-17 | the older and newer string reads are the same function |
| LegacyLoggingConfigurationFunctions.ReadBoolean | src/libs/KorneiDontsov.Logging/configured/LoggingConfigurationFunctions.cs:20-30 | absent gives false; true/false in any case gives the boolean; other text fails with the lower-cased text |
| LegacyLoggingConfigurationFunctions.ReadBooleanNeverMisses | src/libs/KorneiDontsov.Logging/configured/LoggingConfigurationFunctions.cs:20-30 | it fails only on a present text, with the not-boolean error |
| LegacyLoggingConfigurationFunctions.ReadBooleanIsCurrentWithDefaultFalse | src/libs/KorneiDontsov.Logging/configured/LoggingConfigurationFunctions.cs:20-30 | it is the newer section read of the property's section with default false, in value and, below the root, in the error message |
| LegacyLoggingConfigurationFunctions.NotBooleanMessagesAgree | src/libs/KorneiDontsov.Logging/configured/LoggingConfigurationFunctions.cs:22-23 | the property form of the not-boolean message equals the section form for the property's path |
| LegacyLoggingConfigurationFunctions.ReadEnum | src/libs/KorneiDontsov.Logging/configured/LoggingConfigurationFunctions.cs:33-43 | an absent property gives no value; a member name in any case gives that member; other text is the invalid-value error |
| LegacyLoggingConfigurationFunctions.ReadEnumWithDefaultIsCurrent | src/libs/KorneiDontsov.Logging/configured/LoggingConfigurationFunctions.cs:33-43 | with a default applied, the older enum read is the newer property read given that default |
| ProfileConfiguration.New | src/libs/KorneiDontsov.Logging/configured/LoggingProfileConfiguration.cs:19-23 | succeeds exactly when minLevel is absent or a level name and type exists; a bad level wins over a missing type; a success keeps the section, the level read or Verbose, and the lower-cased type |
| ProfileConfiguration.MinLevelDefaultsToVerbose | src/libs/KorneiDontsov.Logging/configured/LoggingProfileConfiguration.cs:21 | without minLevel the profile's level is Verbose |
| ProfileConfiguration.MinLevelByName | src/libs/KorneiDontsov.Logging/configured/LoggingProfileConfiguration.cs:21 | a level named in any case is that level |
| ProfileConfiguration.InvalidMinLevelFails | src/libs/KorneiDontsov.Logging/configured/LoggingProfileConfiguration.cs:21 | text naming no level is the invalid-value error for minLevel |
| ProfileConfiguration.ProfileTypeNameIsLowerCase | src/libs/KorneiDontsov.Logging/configured/LoggingProfileConfiguration.cs:22 | the type name is lower-case, and types that differ only in letter case give the same name |
| ProfileConfiguration.WriteThroughView | src/libs/KorneiDontsov.Logging/configured/LoggingProfileConfiguration.cs:34-43 | values written through the view are read back through it, leaving level, type, key and path as they were |
| ProfileConfiguration.ProfileConfiguration.GetSyncValue | src/libs/KorneiDontsov.Logging/configured/LoggingProfileConfiguration.cs:57-58 | true exactly when sync reads "true" in any case; absent is false; other text is the not-boolean error for sync |
| ProfileConfiguration.ProfileConfiguration.GetOutputTemplate | src/libs/KorneiDontsov.Logging/configured/LoggingProfileConfiguration.cs:60-69 | fails exactly when output has no items, with the missed-output error; otherwise every item's value followed by {NewLine}, in order |
| ProfileConfiguration.TemplateOfConcat | src/libs/KorneiDontsov.Logging/configured/LoggingProfileConfiguration.cs:65-66 | the template of joined item lists is the join of their templates |
| NumberSigns.SignFlag | src/libs/KorneiDontsov.Logging/tech/NumberSigns/NumberSignsFunctions.cs:9-14 | each number has exactly one of the Zero, Positive and Negative flags |
| NumberSigns.FlagsAreDistinctBits | src/libs/KorneiDontsov.Logging/tech/NumberSigns/NumberSigns.cs:8-14 | the three flags are disjoint bits and All is their union |
| NumberSigns.MatchSignIsSignFlag | src/libs/KorneiDontsov.Logging/tech/NumberSigns/NumberSignsFunctions.cs:8-21 | a number matches a set exactly when the set holds its sign's flag, in both widths |
| NumberSigns.OverloadsAgree | src/libs/KorneiDontsov.Logging/tech/NumberSigns/NumberSignsFunctions.cs:8-21 | the 32-bit and 64-bit matches agree on every Int32 |
| NumberSigns.AllMatchesEverything | src/libs/KorneiDontsov.Logging/tech/NumberSigns/NumberSignsFunctions.cs:16-21 | every number matches All |
| NumberSigns.PositiveMatchesOnlyAboveZero | src/libs/KorneiDontsov.Logging/tech/NumberSigns/NumberSignsFunctions.cs:16-21 | Positive matches exactly the numbers above zero |
| NumberSigns.EmptySetMatchesNothing | src/libs/KorneiDontsov.Logging/tech/NumberSigns/NumberSignsFunctions.cs:16-21 | the empty set matches no number |
| NumberSigns.MoreFlagsMatchMore | src/libs/KorneiDontsov.Logging/tech/NumberSigns/NumberSignsFunctions.cs:16-21 | adding flags never loses a match |
| Appliers.RegistryOfSucceedsIffDistinct | src/libs/KorneiDontsov.Logging/loggers/configured/ConfiguredLoggingFunctions.cs:56-63 | the registry is built exactly when no two appliers share a lower-cased name |
| Appliers.RegistryOfRegisters | src/libs/KorneiDontsov.Logging/loggers/configured/ConfiguredLoggingFunctions.cs:56-63 | a built registry maps each lower-cased name to its applier and holds no other key |
| Appliers.RegistryOfConflict | src/libs/KorneiDontsov.Logging/loggers/configured/ConfiguredLoggingFunctions.cs:56-63 | a failed registry reports the first applier whose lower-cased name repeats an earlier one, with that name and the types of both appliers |
| Appliers.RegistryOfFailureStays | src/libs/KorneiDontsov.Logging/loggers/configured/ConfiguredLoggingFunctions.cs:59-62 | once a prefix conflicts, later appliers do not change the error |
| Appliers.BuildRegistry | src/libs/KorneiDontsov.Logging/loggers/configured/ConfiguredLoggingFunctions.cs:56-63 | the loop over the appliers yields the registry function's result |
| Appliers.Run.Then | src/libs/KorneiDontsov.Logging/loggers/configured/ConfiguredLoggingFunctions.cs:160-171 | after a failure nothing more is applied; otherwise the steps are joined and the later failure kept |
| Appliers.ThenAssociates | src/libs/KorneiDontsov.Logging/loggers/configured/ConfiguredLoggingFunctions.cs:160-171 | sequencing stages is associative |
| Appliers.FoldConcat | src/libs/KorneiDontsov.Logging/loggers/configured/ConfiguredLoggingFunctions.cs:65-72 | applying joined item lists is applying the first list, then the second |
| Appliers.FoldFirstFailure | src/libs/KorneiDontsov.Logging/loggers/configured/ConfiguredLoggingFunctions.cs:65-72 | the first failing item ends the loop with its error, keeping the steps of the items before it |
| Appliers.FoldAllSucceed | src/libs/KorneiDontsov.Logging/loggers/configured/ConfiguredLoggingFunctions.cs:65-72 | when every item succeeds, the steps are each item's steps in order |
| Appliers.FoldFailureStays | src/libs/KorneiDontsov.Logging/loggers/configured/ConfiguredLoggingFunctions.cs:65-72 | items after a failing prefix change nothing |
| Appliers.ApplyAll | src/libs/KorneiDontsov.Logging/loggers/configured/ConfiguredLoggingFunctions.cs:65-72 | the loop appends exactly the folded steps and returns the folded failure |
| ConfiguredLoggingFunctions.OverrideStep | src/libs/KorneiDontsov.Logging/loggers/configured/ConfiguredLoggingFunctions.cs:28-34 | a blank key is the source-not-specified error for that path; a success is one override for the key at the level read |
| ConfiguredLoggingFunctions.ConfigureMinLevels | src/libs/KorneiDontsov.Logging/loggers/configured/ConfiguredLoggingFunctions.cs:19-35 | appends the default level (Information when absent), then each override in order, stopping at the first error |
| ConfiguredLoggingFunctions.ApplyMinLevels | src/libs/KorneiDontsov.Logging/loggers/configured/ConfiguredLoggingFunctions.cs:25-34 | the same, once the default level has been read |
| ConfiguredLoggingFunctions.MinLevelsDefault | src/libs/KorneiDontsov.Logging/loggers/configured/ConfiguredLoggingFunctions.cs:24-26 | without minLevels the only step is MinimumLevel.Is(Information) |
| ConfiguredLoggingFunctions.BlankOverrideSourceFails | src/libs/KorneiDontsov.Logging/loggers/configured/ConfiguredLoggingFunctions.cs:28-31 | the first blank override key ends the stage with the error naming its path |
| ConfiguredLoggingFunctions.ProfileStep | src/libs/KorneiDontsov.Logging/loggers/configured/ConfiguredLoggingFunctions.cs:66-72 | a profile that fails to read fails; a known type applies its applier; an unknown type is the not-known error |
| ConfiguredLoggingFunctions.UnknownProfileTypeFails | src/libs/KorneiDontsov.Logging/loggers/configured/ConfiguredLoggingFunctions.cs:53-54 | the not-known profile error names the lower-cased type and the profile's path |
| ConfiguredLoggingFunctions.ConfigureProfiles | src/libs/KorneiDontsov.Logging/loggers/configured/ConfiguredLoggingFunctions.cs:37-73 | appends nothing on a registry conflict; otherwise each profile's steps in order up to the first failure |
| ConfiguredLoggingFunctions.EntryStep | src/libs/KorneiDontsov.Logging/loggers/configured/ConfiguredLoggingFunctions.cs:104-111 | the lower-cased key selects the applier; an unknown key is the not-known error |
| ConfiguredLoggingFunctions.ConfigureEnrichments | src/libs/KorneiDontsov.Logging/loggers/configured/ConfiguredLoggingFunctions.cs:75-112 | appends nothing on an enrichment registry conflict; otherwise each entry's steps in order up to the first failure |
| ConfiguredLoggingFunctions.ConfigureFilters | src/libs/KorneiDontsov.Logging/loggers/configured/ConfiguredLoggingFunctions.cs:114-151 | appends nothing on a filter registry conflict; otherwise each entry's steps in order up to the first failure |
| ConfiguredLoggingFunctions.UnknownEntryAborts | src/libs/KorneiDontsov.Logging/loggers/configured/ConfiguredLoggingFunctions.cs:104-111 | the first unknown entry ends the stage with the not-known error, keeping the earlier entries' steps |
| ConfiguredLoggingFunctions.KnownEntriesApplyInOrder | src/libs/KorneiDontsov.Logging/loggers/configured/ConfiguredLoggingFunctions.cs:104-111 | with every entry known and succeeding, the stage succeeds and each entry's applier runs in entry order |
| ConfiguredLoggingFunctions.PipelineFirstFailure | src/libs/KorneiDontsov.Logging/loggers/configured/ConfiguredLoggingFunctions.cs:160-171 | the build fails at its first failing stage, and later stages add nothing |
| ConfiguredLoggingFunctions.ConfigureLevelsAndProfiles | src/libs/KorneiDontsov.Logging/loggers/configured/ConfiguredLoggingFunctions.cs:164-165 | the min-level stage and then the profile stage, after the earlier steps |
| ConfiguredLoggingFunctions.ConfigureEntries | src/libs/KorneiDontsov.Logging/loggers/configured/ConfiguredLoggingFunctions.cs:166-167 | the enrichment stage and then the filter stage, after the earlier steps |
| ConfiguredLoggingFunctions.CreateConfiguredLogger | src/libs/KorneiDontsov.Logging/loggers/configured/ConfiguredLoggingFunctions.cs:154-172 | fails exactly when the build does, with its error; otherwise a fresh logger over the built steps |
| ConfiguredLoggingFunctions.CreateConfiguredLoggerWithoutFilters | src/libs/KorneiDontsov.Logging/loggers/configured/ConfiguredLoggingFunctions.cs:175-183 | the build with no filter appliers and no callback |
| ConfiguredLoggingFunctions.CreateSharedConfiguredLogger | src/libs/KorneiDontsov.Logging/loggers/configured/ConfiguredLoggingFunctions.cs:186-193 | the same logger, also installed as the global logger; a failure leaves the global logger alone |
| ConfiguredLoggingFunctions.ProfileErrorPrecedesEnrichmentConflict | src/libs/KorneiDontsov.Logging/loggers/configured/ConfiguredLoggingFunctions.cs:160-171 | a failing profile is reported although the enrichment appliers conflict |
| ConfiguredLoggingFunctions.EnrichmentConflictAfterProfiles | src/libs/KorneiDontsov.Logging/loggers/configured/ConfiguredLoggingFunctions.cs:95-102 | an enrichment conflict is reported only after min levels and profiles, whose steps are kept |
| ConfiguredLoggingFunctions.NoFilterAppliersRejectFilters | src/libs/KorneiDontsov.Logging/loggers/configured/ConfiguredLoggingFunctions.cs:175-183 | without filter appliers, any filter entry is the not-known filter error |
| LegacyConfiguredLoggingFunctions.ProfileStep | src/libs/KorneiDontsov.Logging/configured/ConfiguredLoggingFunctions.cs:66-75 | a profile that fails to read fails; a known type applies its applier; an unknown type is the older not-known error |
| LegacyConfiguredLoggingFunctions.EntryStep | src/libs/KorneiDontsov.Logging/configured/ConfiguredLoggingFunctions.cs:77-97 | the lower-cased key selects the applier; an unknown key is the older not-known error |
| LegacyConfiguredLoggingFunctions.CreateConfiguredLogger | src/libs/KorneiDontsov.Logging/configured/ConfiguredLoggingFunctions.cs:17-100 | fails exactly when the older build does; otherwise a fresh logger over its steps |
| LegacyConfiguredLoggingFunctions.CreateConfiguredLoggerWithoutFilters | src/libs/KorneiDontsov.Logging/configured/ConfiguredLoggingFunctions.cs:103-111 | the older build with no filter appliers |
| LegacyConfiguredLoggingFunctions.CreateSharedConfiguredLogger | src/libs/KorneiDontsov.Logging/configured/ConfiguredLoggingFunctions.cs:114-121 | the same logger, also installed as the global logger; a failure leaves the global logger alone |
| LegacyConfiguredLoggingFunctions.RegistryConflictIgnoresConfiguration | src/libs/KorneiDontsov.Logging/configured/ConfiguredLoggingFunctions.cs:22-59 | a registry conflict fails the same way whatever the configuration, with no steps taken |
| LegacyConfiguredLoggingFunctions.ProfileConflictReportedFirst | src/libs/KorneiDontsov.Logging/configured/ConfiguredLoggingFunctions.cs:22-33 | a profile conflict is reported even when the other registries conflict as well |
| LegacyConfiguredLoggingFunctions.NoMinLevelStage | src/libs/KorneiDontsov.Logging/configured/ConfiguredLoggingFunctions.cs:61-99 | a successful older build is the initial steps, then profiles, enrichments and filters, with no minimum-level step |
| LegacyConfiguredLoggingFunctions.UnknownProfileTypeMessage | src/libs/KorneiDontsov.Logging/configured/ConfiguredLoggingFunctions.cs:71-74 | an unknown type fails with the message "'<path>:type': profile type '<t>' is not known." |
| LegacyConfiguredLoggingFunctions.LegacyNotKnownProfileText | src/libs/KorneiDontsov.Logging/configured/ConfiguredLoggingFunctions.cs:72-73 | that error is a LoggingConfigurationException with that message |
| LegacyConfiguredLoggingFunctions.UnknownEntryAborts | src/libs/KorneiDontsov.Logging/configured/ConfiguredLoggingFunctions.cs:77-97 | the first unknown entry ends its loop with the error naming its path and lower-cased key |
| LegacyConfiguredLoggingFunctions.EntryStepAgreesWithCurrent | src/libs/KorneiDontsov.Logging/configured/ConfiguredLoggingFunctions.cs:77-97 | both revisions send an entry to the same applier with the same result; they differ only in the not-known error |
| LogFileProfileApplier.SubstituteReplacesTokens | src/libs/KorneiDontsov.Logging/configured/profiles/LogFileProfileApplier.cs:44-53 | after plain text, {app} (any case) becomes the application name and {launchutc} the launch stamp |
| LogFileProfileApplier.SubstituteKeepsPlainText | src/libs/KorneiDontsov.Logging/configured/profiles/LogFileProfileApplier.cs:44-53 | text without '{' comes out unchanged |
| LogFileProfileApplier.SubstituteAfterPlainText | src/libs/KorneiDontsov.Logging/configured/profiles/LogFileProfileApplier.cs:44-53 | a brace-free prefix is kept and the rest substituted |
| LogFileProfileApplier.LaunchStamp | src/libs/KorneiDontsov.Logging/configured/profiles/LogFileProfileApplier.cs:51 | the launch stamp is the 21-character 24-hour UTC form |
| LogFileProfileApplier.FullPath | src/libs/KorneiDontsov.Logging/configured/profiles/LogFileProfileApplier.cs:57-61 | a rooted path is kept; otherwise it is combined with the content root |
| LogFileProfileApplier.Apply | src/libs/KorneiDontsov.Logging/configured/profiles/LogFileProfileApplier.cs:23-76 | a success is one file sink, wrapped in an async sink exactly when sync is false; the sink has the level and template, the full path of the substituted `path`, and the maxSize (1 GiB by default) and retained-file limit as the checked reads give them |
| LogFileProfileApplier.AsApplier | src/libs/KorneiDontsov.Logging/configured/profiles/LogFileProfileApplier.cs:20 | the applier handles the profile type "file" |
| LogFileProfileApplier.PathMustBeGiven | src/libs/KorneiDontsov.Logging/configured/profiles/LogFileProfileApplier.cs:40-42 | a missing path is the missed-property error; a blank one is the path-is-empty error |
| LogFileProfileApplier.InvalidCharacterIsReported | src/libs/KorneiDontsov.Logging/configured/profiles/LogFileProfileApplier.cs:54-55 | the first invalid character of the substituted path is reported with its template, path and index |
| LogFileProfileApplier.ConfiguredLimits | src/libs/KorneiDontsov.Logging/configured/profiles/LogFileProfileApplier.cs:63-76 | positive maxSize and retainedFileCountLimit values reach the sink unchanged, over the full path |
| LogFileProfileApplier.DefaultLimits | src/libs/KorneiDontsov.Logging/configured/profiles/LogFileProfileApplier.cs:63-64 | without maxSize and retainedFileCountLimit the sink has 1 GiB and no retained-count limit |
| LogFileProfileApplier.MaxSizeMustBePositive | src/libs/KorneiDontsov.Logging/configured/profiles/LogFileProfileApplier.cs:63 | a maxSize that is not positive is the not-matching-sign error |
| LogFileProfileApplier.RetainedLimitMustBePositive | src/libs/KorneiDontsov.Logging/configured/profiles/LogFileProfileApplier.cs:64 | a retainedFileCountLimit that is not positive is the not-matching-sign error |
| ThreadEnrichmentApplier.ApplyOps | src/libs/KorneiDontsov.Logging/loggers/configured/enrichments/ThreadEnrichmentApplier.cs:14-19 | the thread-id and thread-name enrichers when the value is true; nothing when absent or false; otherwise the not-boolean error |
| ThreadEnrichmentApplier.AsApplier | src/libs/KorneiDontsov.Logging/loggers/configured/enrichments/ThreadEnrichmentApplier.cs:11 | the applier handles the enrichment "thread" |
| ThreadEnrichmentApplier.Apply | src/libs/KorneiDontsov.Logging/loggers/configured/enrichments/ThreadEnrichmentApplier.cs:14-19 | on success it appends exactly those steps; on failure it appends nothing |
| ThreadEnrichmentApplier.AllOrNothing | src/libs/KorneiDontsov.Logging/loggers/configured/enrichments/ThreadEnrichmentApplier.cs:15-18 | both enrichers or neither; it fails exactly when the value is no boolean |
| LegacyThreadEnrichmentApplier.ApplyOps | src/libs/KorneiDontsov.Logging/configured/enrichments/ThreadEnrichmentApplier.cs:15-30 | the same decisions; other text is the not-true-or-false error with the text as given |
| LegacyThreadEnrichmentApplier.AsApplier | src/libs/KorneiDontsov.Logging/configured/enrichments/ThreadEnrichmentApplier.cs:11-12 | the applier handles the enrichment "thread" |
| LegacyThreadEnrichmentApplier.Apply | src/libs/KorneiDontsov.Logging/configured/enrichments/ThreadEnrichmentApplier.cs:15-30 | on success it appends exactly those steps; on failure it appends nothing |
| LegacyThreadEnrichmentApplier.AgreesWithCurrent | src/libs/KorneiDontsov.Logging/configured/enrichments/ThreadEnrichmentApplier.cs:15-30 | both revisions succeed on the same values with the same steps |
| LegacyThreadEnrichmentApplier.ErrorsDiffer | src/libs/KorneiDontsov.Logging/configured/enrichments/ThreadEnrichmentApplier.cs:26-28 | on "Yes" the older error keeps the text as given and the newer lower-cases it |
| Serilog.ConfiguredLogger.constructor | src/libs/KorneiDontsov.Logging/loggers/configured/ConfiguredLogger.cs:31 | the global logger becomes impl, and the replaced one is saved |
| Serilog.ConfiguredLogger.Dispose | src/libs/KorneiDontsov.Logging/loggers/configured/ConfiguredLogger.cs:34-41 | the first call restores the saved global logger and disposes impl once; later calls change nothing |
| ConfiguredLoggerCreation.NewConfiguredLogger | src/libs/KorneiDontsov.Logging/loggers/configured/ConfiguredLogger.cs:18-32 | builds from the logging subsection; a failed build leaves the global logger; a success installs impl over exactly the built steps |
| ConfiguredLoggerCreation.ScopedConfiguredLogger | src/libs/KorneiDontsov.Logging/loggers/configured/ConfiguredLogger.cs:18-41 | creating and disposing (even twice) leaves the global logger as before, with impl disposed exactly once |
| ConfiguredLoggerCreation.ForwardsToImpl | src/libs/KorneiDontsov.Logging/loggers/configured/ConfiguredLogger.cs:43-96 | IsEnabled and every write of a ConfiguredLogger are those of impl |
| ConfiguredLoggerFactories.NewConfiguredLoggerFactory | src/libs/KorneiDontsov.Logging/configured/ConfiguredLoggerFactory.cs:20-33 | the older build over the logging subsection; a failure leaves the global logger; a success installs the logger and a provider that does not own it |
| ConfiguredLoggerFactories.ConfiguredLoggerFactory.constructor | src/libs/KorneiDontsov.Logging/configured/ConfiguredLoggerFactory.cs:31-32 | swaps the logger into the global slot, saving the old one, and keeps a non-owning provider |
| ConfiguredLoggerFactories.ConfiguredLoggerFactory.Dispose | src/libs/KorneiDontsov.Logging/configured/ConfiguredLoggerFactory.cs:35-38 | restores the saved global logger and disposes the logger, on every call |
| ConfiguredLoggerFactories.DisposeTwice | src/libs/KorneiDontsov.Logging/configured/ConfiguredLoggerFactory.cs:35-38 | two disposals dispose the logger twice, since nothing guards Dispose |
| ConfiguredLoggerFactories.ConfiguredLoggerFactory.CreateLogger | src/libs/KorneiDontsov.Logging/configured/ConfiguredLoggerFactory.cs:41-42 | the provider's logger for the category, not owned by it |
| ConfiguredLoggerFactories.ConfiguredLoggerFactory.AddProvider | src/libs/KorneiDontsov.Logging/configured/ConfiguredLoggerFactory.cs:45-46 | changes nothing and produces only the self-log line naming the provider |
| LoggerFunctions.MayGetFastImpl | src/libs/KorneiDontsov.Logging/extensions/LoggerFunctions.cs:9-14 | a logger exactly when the ILogger is a concrete logger (itself) or a ConfiguredLogger; it accepts the same levels |
| LoggerFunctions.FastImplIsConcrete | src/libs/KorneiDontsov.Logging/extensions/LoggerFunctions.cs:9-14 | the fast view of a fast view is itself |
| AotLoggers.FastViewOf | src/libs/KorneiDontsov.Logging/loggers/AotLogger.cs:24 | there is a fast view exactly when impl is a concrete logger, and then it is impl |
| AotLoggers.AotLogger.constructor | src/libs/KorneiDontsov.Logging/loggers/AotLogger.cs:23-26 | keeps impl and its fast view |
| AotLoggers.AotLogger.Dispatch | src/libs/KorneiDontsov.Logging/loggers/AotLogger.cs:61-157 | every overload reaches the pipeline with the events a direct write to impl gives; one to three values go to the fast view, or to impl's params overload only when it is enabled; the others go to impl |
| AotLoggers.AotLogger.IsEnabledFor | src/libs/KorneiDontsov.Logging/loggers/AotLogger.cs:160-161 | answers for impl, and so for the fast view |
| AotLoggers.AotLogger.ForContext | src/libs/KorneiDontsov.Logging/loggers/AotLogger.cs:38-55 | a fresh wrapper with the same levels, a fast view unless impl is unknown, and one more context item |
| AotLoggers.AotLogger.Dispose | src/libs/KorneiDontsov.Logging/loggers/AotLogger.cs:32-35 | disposes the fast view once if there is one, otherwise impl if it is disposable |
| AotLogs.AotLog.constructor | src/libs/KorneiDontsov.Logging/loggers/AotLog.cs:13-14 | the cache starts as the wrapper over the silent logger |
| AotLogs.AotLog.GetLogger | src/libs/KorneiDontsov.Logging/loggers/AotLog.cs:20-38 | the result wraps the current global logger and is the cache; it is the old cache when that already wrapped it, a fresh wrapper otherwise |
| AotLogs.AotLog.GetLoggerTwice | src/libs/KorneiDontsov.Logging/loggers/AotLog.cs:20-38 | two reads with no change in between give the same wrapper |
| AotLogs.AotLog.CloseAndFlush | src/libs/KorneiDontsov.Logging/loggers/AotLog.cs:42-45 | the global logger is reset to the silent logger and disposed (a concrete one once); a ConfiguredLogger disposed for the first time restores the logger it replaced; the cache wraps the global logger that results |
| Serilog.GlobalLog.CloseAndFlush | src/libs/KorneiDontsov.Logging/loggers/configured/ConfiguredLogger.cs:36-41 | the slot goes back to the silent logger and the old logger is disposed; a ConfiguredLogger of this slot disposed for the first time leaves the slot holding the logger it replaced |
| SourceLoggers.SourceLogger.constructor | src/libs/KorneiDontsov.Logging/loggers/generic/LoggerT.cs:17-21 | impl has the same levels plus the source context; the fast view exists unless the logger is unknown, and then it carries that context |
| SourceLoggers.SourceLogger.Dispatch | src/libs/KorneiDontsov.Logging/loggers/generic/LoggerT.cs:53-87 | the events of a direct write to impl: one to three values via the fast view when there is one, without an IsEnabled gate; otherwise the same overload of impl |
| SourceLoggers.SourceLogger.ForContextOf | src/libs/KorneiDontsov.Logging/loggers/generic/LoggerT.cs:36-38 | the registered typed logger when the provider has one; otherwise a fresh one for the other type, whose fast context gains the source context twice |
| SourceLoggers.SourceLogger.ForContextAsILogger | src/libs/KorneiDontsov.Logging/loggers/generic/LoggerT.cs:41-42 | impl with the other source context once, with the same levels |
| LoggerProviders.LoggerProviderCollection.constructor | src/libs/KorneiDontsov.Logging/Serilog.Extensions.Logging/LoggerProviderCollection.cs:36 | the collection starts empty |
| LoggerProviders.LoggerProviderCollection.AddProvider | src/libs/KorneiDontsov.Logging/Serilog.Extensions.Logging/LoggerProviderCollection.cs:42-56 | null is the ArgumentNullException for provider and changes nothing; otherwise the provider is appended |
| LoggerProviders.LoggerProviderCollection.Dispose | src/libs/KorneiDontsov.Logging/Serilog.Extensions.Logging/LoggerProviderCollection.cs:68-72 | every provider is disposed, in order, once per time it was added |
| CrashLogger.EncodeToUseInPath | src/libs/KorneiDontsov.Logging/loggers/CrashLogger.cs:44-59 | the nested loop yields the name with every invalid path character and both separators replaced by '-' |
| CrashLogger.EncodedIsSafe | src/libs/KorneiDontsov.Logging/loggers/CrashLogger.cs:44-59 | the encoding keeps the length, changes exactly the invalid characters, leaves none, and is idempotent |
| CrashLogger.ConditionHolds | src/libs/KorneiDontsov.Logging/loggers/CrashLogger.cs:64-75 | Always holds, IfGlobalLoggerMissed holds when the global logger missed, Never does not |
| CrashLogger.ShouldCreateNeedsBoth | src/libs/KorneiDontsov.Logging/loggers/CrashLogger.cs:76-77 | an emergency logger exactly when both conditions hold; never when either is Never |
| CrashLogger.DefaultsDecide | src/libs/KorneiDontsov.Logging/loggers/CrashLogger.cs:76-77 | with Version2 there is an emergency logger exactly when the global logger missed; with Version1 never |
| CrashLogger.Version1CrashIsLostAsWritten | src/libs/KorneiDontsov.Logging/loggers/CrashLogger.cs:76-77 | as written, with Version1 a crash the global logger misses is written nowhere |
| CrashLogger.IntendedCrashOps | src/libs/KorneiDontsov.Logging/loggers/CrashLogger.cs:83-103 | the intended emergency logger has the console sink exactly when the console is wanted and the crash file exactly when a file is wanted; it equals the written sinks whenever the written test passes |
| CrashLogger.CrashIsAlwaysRecordedIntended | src/libs/KorneiDontsov.Logging/loggers/CrashLogger.cs:76-77 | with the intended test, any condition other than Never keeps every crash, Version1 writes its file whenever the global logger misses, and the two tests differ exactly when one output is wanted and the other not |
| CrashLogger.CrashIsAlwaysRecorded | src/libs/KorneiDontsov.Logging/loggers/CrashLogger.cs:120-123 | when no condition is Never, the global logger or an emergency logger writes every crash |
| CrashLogger.CrashWrite | src/libs/KorneiDontsov.Logging/loggers/CrashLogger.cs:112-120 | a Fatal params write: the first crash gives the one-clause message with its stamp; later ones add the previous stamp |
| CrashLogger.CrashLoggerAcceptsFatal | src/libs/KorneiDontsov.Logging/loggers/CrashLogger.cs:83-103 | the emergency logger's minimum level admits Fatal |
| CrashLogger.CrashFileNameIsIntended | src/libs/KorneiDontsov.Logging/loggers/CrashLogger.cs:91-97 | the escaped template formats to encoded name, "_", log name, "_", 24-hour stamp, ".log" |
| CrashLogger.CrashFileNamesDiffer | src/libs/KorneiDontsov.Logging/loggers/CrashLogger.cs:91-97 | with the 24-hour stamp, crashes at different instants get different files |
| CrashLogger.TwelveHoursApartAsWrittenCollide | src/libs/KorneiDontsov.Logging/loggers/CrashLogger.cs:97 | as written, 01:00 and 13:00 of one day give the same file name |
| CrashLogger.BraceInAppNameAsWrittenFails | src/libs/KorneiDontsov.Logging/loggers/CrashLogger.cs:91-97 | as written, an application name "{" makes the file name a format error |
| CrashLogger.CrashFileNameAsWrittenForPlainName | src/libs/KorneiDontsov.Logging/loggers/CrashLogger.cs:91-97 | as written, an encoded name without braces formats to name, "_", log name, "_", "hh" stamp, ".log" |
| DateTimes.FormatInjective | src/libs/KorneiDontsov.Logging/loggers/CrashLogger.cs:97 | the 24-hour stamp names every valid instant differently |
| DateTimes.CrashStampAsWrittenCollides | src/libs/KorneiDontsov.Logging/loggers/CrashLogger.cs:97 | the "hh" stamp shows 01:00 and 13:00 alike |
| DateTimes.CrashStampAsWrittenAgreesFromOneToTwelve | src/libs/KorneiDontsov.Logging/loggers/CrashLogger.cs:97 | the "hh" and "HH" stamps agree on the hours 1 to 12 |
| CrashLogger.ValidatePathAsWrittenNamesWrongParameter | src/libs/KorneiDontsov.Logging/loggers/CrashLogger.cs:159-162 | as written, Activate("") reports parameter "path" instead of "crashLogRootPath" |
| CrashLogger.ValidatePath | src/libs/KorneiDontsov.Logging/loggers/CrashLogger.cs:148-163 | passes exactly non-empty paths free of invalid characters; else the empty-path error or the first invalid character, each naming the caller's argument |
| CrashLogger.ValidatePathDiffersOnlyInName | src/libs/KorneiDontsov.Logging/loggers/CrashLogger.cs:159-162 | the as-written check accepts the same paths and is the corrected one with the name "path" |
| CrashLogger.ValidateWriteCondition | src/libs/KorneiDontsov.Logging/loggers/CrashLogger.cs:166-179 | passes exactly the three named conditions; else the not-valid error for the argument |
| CrashLogger.ValidateOptions | src/libs/KorneiDontsov.Logging/loggers/CrashLogger.cs:195-202 | passes exactly when both conditions are named and, unless the file condition is Never, the root path is valid; the console condition is checked first; a path error is the one ValidatePath gives under the name "path" |
| CrashLogger.Worker.constructor | src/libs/KorneiDontsov.Logging/loggers/CrashLogger.cs:126-128 | Version2 options, nothing cached, no earlier crash |
| CrashLogger.Worker.GetLogFileNameTemplate | src/libs/KorneiDontsov.Logging/loggers/CrashLogger.cs:91 | the template, the encoded name unescaped before "_{0}_{1}.log", is built once and then reused |
| CrashLogger.Worker.CreateCrashLoggerIfRequired | src/libs/KorneiDontsov.Logging/loggers/CrashLogger.cs:61-105 | nothing unless both outputs are wanted; otherwise the format error of the as-written file name, or a fresh logger with the console sink and that crash file under the root path |
| CrashLogger.Worker.OnCrash | src/libs/KorneiDontsov.Logging/loggers/CrashLogger.cs:107-124 | stores this raise, writes the Fatal record to the global logger, then writes it to an emergency logger exactly when one is built, or ends with the file-name format error |
| CrashLogger.Worker.ActivateWithRootPath | src/libs/KorneiDontsov.Logging/loggers/CrashLogger.cs:185-193 | on a valid path, console when missed and file always under it; otherwise the ValidatePath error under the name "path" and no change |
| CrashLogger.Worker.ActivateWithOptions | src/libs/KorneiDontsov.Logging/loggers/CrashLogger.cs:195-204 | stores the options exactly when they pass validation; otherwise the error and no change |
| CrashLoggerOptions.DefaultsAreConsistent | src/libs/KorneiDontsov.Logging/loggers/crash/CrashLoggerOptions.cs:29-43 | Version2 and Version1 use named conditions and carry the root path that their file output needs |

## Left out

- `CrashLogger.Activate()` without arguments only forces the static constructor; it has no model of its own beyond `Worker.constructor`.
- The event subscriptions of the crash worker (CrashLogger.cs:130-141) are left out. This covers `UnhandledException`, `UnobservedTaskException` and `ProcessExit`, and the wrapping of non-exception objects in `NonNativeException`. `OnCrash` is modelled as a method that each handler would call.
- The emergency logger built for a crash is never disposed in the source, and the model does not dispose it either. The console theme is only a name.
- Concurrency is left out: the compare-and-exchange retry loops (AotLog.cs:27-37, LoggerProviderCollection.cs:50-55), the `Interlocked` dispose flag and `Interlocked.Exchange` of the raise time are modelled for a single thread.
- AotLog.cs's static forwarding members (48-end) only call the getter and then the same member of `AotLogger`, which is modelled.
- `Write(LogEvent)` and the per-level members (`Verbose` ... `Fatal`) are covered by `Dispatch`: a write carries its level. The per-level bodies each repeat the write they forward to.
- `Logger<TSource>`'s `ForContext(enricher)`, `ForContext(property)` and `ForContext(Type)`, `BindMessageTemplate` and `BindProperty` are omitted; each only delegates to `impl`.
- Hosting and dependency-injection glue (`UseConfiguredLogger`, service registration), `ConsoleProfileApplier`, `MicrosoftLoggerFactory`, `TimestampEnrichmentApplier` and the enrichers are not part of this model. Neither are Serilog's sinks themselves: a sink is an `Op` naming its settings.
- CompositeFormat.Format: alignment and format specifiers in format items are not modelled; only `{n}`, `{{` and `}}`.
- Primitives.EnumTryParse: `Enum.TryParse` also accepts numeric text and comma-separated names; the model accepts member names only, in any letter case.
- Primitives.Lower: `ToLowerInvariant` is modelled on ASCII letters only.
- DateTimes.Format: `DateTime.ToString` with a custom format uses the current culture's calendar; the model writes Gregorian digits, as the invariant culture does. `CultureInfo.InvariantCulture` at CrashLogger.cs:94 governs only `String.Format`.
- DateTimes.FormatCrashStampAsWritten: written with Gregorian digits whatever the current culture, as `DateTimes.Format` is.
- LogFileProfileApplier.LaunchStamp: written with Gregorian digits whatever the current culture, as `DateTimes.Format` is.
- Primitives.ParseInteger: .NET integer parsing under the current culture is modelled for the invariant culture (optional sign, digits, surrounding white space).
- Serilog.Logger: a logger's minimum level is the last `MinimumLevel.Is` step, Information when there is none. The overrides, filters and sinks are kept as steps but do not take part in `IsEnabled`.
- AotLoggers.FastViewOf: `impl as Logger` succeeds only for a concrete logger. A `ConfiguredLogger` handed to `AotLogger` therefore has no fast view.
- AotLogs.AotLog.constructor: `AotLogger.None` wraps `Logger.None`, which the model identifies with the silent logger the global slot starts with.
- SourceLoggers.SourceLogger.ForContextOf: the service provider is modelled as a map from type name to registered typed logger.

## Findings

| source | as written | input that shows it | evidently intended | confidence | as-written member | corrected member |
|---|---|---|---|---|---|---|
| src/libs/KorneiDontsov.Logging/loggers/CrashLogger.cs:97 | the crash file stamp uses "hh", the 12-hour clock without an AM/PM marker | two crashes on 2021-03-14 at 01:00 and 13:00 UTC give one file name | "HH", the 24-hour clock, as the log-file profile uses (LogFileProfileApplier.cs:51) | not executed | CrashLogger.TwelveHoursApartAsWrittenCollide | CrashLogger.CrashFileNamesDiffer |
| src/libs/KorneiDontsov.Logging/loggers/CrashLogger.cs:91-97 | the encoded application name goes unescaped into a composite format string | an application named "{" makes `String.Format` throw a FormatException inside the crash handler | the name escaped (`{{`, `}}`) so it appears verbatim | not executed | CrashLogger.BraceInAppNameAsWrittenFails | CrashLogger.CrashFileNameIsIntended |
| src/libs/KorneiDontsov.Logging/loggers/CrashLogger.cs:159-162 | ValidatePath reports `nameof(path)` rather than its argName parameter | `Activate("")` reports parameter "path", not "crashLogRootPath" | the argument name each caller passes | not executed | CrashLogger.ValidatePathAsWrittenNamesWrongParameter | CrashLogger.ValidatePath |
| src/libs/KorneiDontsov.Logging/loggers/CrashLogger.cs:76 | `!(writeToConsole & writeToFile)` builds an emergency logger only when both outputs are wanted, which makes the tests at lines 85 and 90 always true | Version1 (console Never, file IfGlobalLoggerMissed) with a global logger disabled for Fatal: the crash is written nowhere | `!(writeToConsole \| writeToFile)`: a logger with the sinks of the wanted outputs | not executed | CrashLogger.Version1CrashIsLostAsWritten | CrashLogger.CrashIsAlwaysRecordedIntended |
| src/libs/KorneiDontsov.Logging/loggers/configured/LoggingConfigurationFunctions.cs:66 | `ReadBoolean(propName, ...)` switches on `conf.Value`, not `conf[propName]` | a section without a value whose "sync" child is "true", read with no default: the missed-property error | the value of `conf[propName]`, which its error messages name | not executed | LoggingConfigurationFunctions.ReadBooleanPropMissesStoredProperty | LoggingConfigurationFunctions.ReadBooleanPropIntendedAfterWrite |
