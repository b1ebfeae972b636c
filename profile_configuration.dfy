/** LoggingProfileConfiguration: a profile section seen through a view that
    has already read the profile's minimum level and its lower-cased type,
    and that assembles the profile's output template. */
module ProfileConfiguration {
  import opened Wrappers
  import opened Primitives
  import opened Configuration
  import opened Errors
  import opened Serilog
  import Legacy = LegacyLoggingConfigurationFunctions

  datatype ProfileConfiguration = ProfileConfiguration(profileConf: Section, minLevel: Level, profileTypeName: string) {

    // The delegating members: each answers for the wrapped section.

    function Key(): string { profileConf.key }
    function Path(): string { profileConf.path }
    function Value(): Option<string> { profileConf.Value() }
    function Item(k: string): Option<string> { profileConf.Item(k) }
    function GetChildren(): seq<Section> { profileConf.GetChildren() }
    function GetSection(k: string): Section { profileConf.GetSection(k) }

    /** The Value setter writes through to the wrapped section. */
    function WithValue(v: Option<string>): ProfileConfiguration {
      this.(profileConf := profileConf.WithValue(v))
    }

    /** The indexer setter writes through to the wrapped section. */
    function WithItem(k: string, v: Option<string>): ProfileConfiguration {
      this.(profileConf := profileConf.WithItem(k, v))
    }

    /** GetSyncValue: the older boolean read of `sync`, so an absent value
        means asynchronous. */
    function GetSyncValue(): (r: Result<bool, Error>)
      ensures r.Success? ==> (r.value <==> Item("sync").Some? && Lower(Item("sync").value) == "true")
      ensures r.Failure? <==>
        Item("sync").Some? && Lower(Item("sync").value) != "true" && Lower(Item("sync").value) != "false"
      ensures r.Failure? ==> r.error == NotBooleanProp(Path(), "sync", Lower(Item("sync").value))
    {
      Legacy.ReadBoolean(profileConf, "sync")
    }

    /** The items of the `output` array. */
    function OutputItems(): seq<Section> {
      profileConf.GetSection("output").GetChildren()
    }

    /** What GetOutputTemplate returns or throws. */
    function OutputTemplate(): Result<string, Error> {
      if OutputItems() == [] then Failure(MissedOutput(SectionDisplayText)) else Success(TemplateOf(OutputItems()))
    }

    /** GetOutputTemplate: the items of `output`, each followed by
        "{NewLine}", or an error when `output` has no items. */
    method GetOutputTemplate() returns (r: Result<string, Error>)
      ensures r.Failure? <==> OutputItems() == []
      ensures r.Failure? ==> r.error == MissedOutput(SectionDisplayText)
      ensures r.Success? ==> r.value == TemplateOf(OutputItems())
      ensures r == OutputTemplate()
    {
      var items := OutputItems();
      if |items| == 0 {
        return Failure(MissedOutput(SectionDisplayText));
      }
      var sb := "";
      var i := 0;
      while i < |items|
        invariant 0 <= i <= |items|
        invariant sb == TemplateOf(items[..i])
      {
        assert items[..i + 1][..i] == items[..i];
        sb := sb + ValueText(items[i]) + NewLineToken;
        i := i + 1;
      }
      assert items[..|items|] == items;
      return Success(sb);
    }
  }

  const NewLineToken: string := "{NewLine}"

  /** What StringBuilder.Append makes of a section's value: nothing for a
      null value. */
  function ValueText(s: Section): string {
    s.Value().GetOr("")
  }

  /** The output template of a sequence of items. */
  function TemplateOf(items: seq<Section>): string
    decreases |items|
  {
    if items == [] then ""
    else TemplateOf(items[..|items| - 1]) + ValueText(items[|items| - 1]) + NewLineToken
  }

  /** The template of a sequence is that of its parts one after the other. */
  lemma {:induction false} TemplateOfConcat(a: seq<Section>, b: seq<Section>)
    ensures TemplateOf(a + b) == TemplateOf(a) + TemplateOf(b)
    decreases |b|
  {
    if b == [] {
      assert a + b == a;
    } else {
      var b' := b[..|b| - 1];
      assert (a + b)[..|a + b| - 1] == a + b';
      assert (a + b)[|a + b| - 1] == b[|b| - 1];
      TemplateOfConcat(a, b');
    }
  }

  /** The template of one item is its text and the line break. */
  lemma TemplateOfOne(s: Section)
    ensures TemplateOf([s]) == ValueText(s) + "{NewLine}"
  {
    assert [s][..0] == [];
  }

  /** The template of items whose texts are known, one item at a time, from
      the front. */
  lemma TemplateOfCons(s: Section, rest: seq<Section>)
    ensures TemplateOf([s] + rest) == ValueText(s) + "{NewLine}" + TemplateOf(rest)
  {
    TemplateOfConcat([s], rest);
    TemplateOfOne(s);
  }

  /** The constructor: `minLevel` by the older enum read of LogEventLevel,
      Verbose when absent; then `type` by ReadString, lower-cased. The first
      failing read is the error. */
  function New(profileConf: Section): (r: Result<ProfileConfiguration, Error>)
    ensures r.Success? <==> Legacy.ReadEnum(profileConf, "minLevel", LevelMembers).Success? && profileConf.Item("type").Some?
    ensures Legacy.ReadEnum(profileConf, "minLevel", LevelMembers).Failure? ==>
      r == Failure(Legacy.ReadEnum(profileConf, "minLevel", LevelMembers).error)
    ensures Legacy.ReadEnum(profileConf, "minLevel", LevelMembers).Success? && profileConf.Item("type").None? ==>
      r == Failure(MissedProp(profileConf.path, "type"))
    ensures r.Success? ==> (r.value.profileConf == profileConf
      && r.value.minLevel == Legacy.ReadEnum(profileConf, "minLevel", LevelMembers).value.GetOr(Verbose)
      && r.value.profileTypeName == Lower(profileConf.Item("type").value))
  {
    var minLevel :- Legacy.ReadEnum(profileConf, "minLevel", LevelMembers);
    var typeName :- Legacy.ReadString(profileConf, "type");
    Success(ProfileConfiguration(profileConf, minLevel.GetOr(Verbose), Lower(typeName)))
  }

  /** An absent `minLevel` means Verbose. */
  lemma MinLevelDefaultsToVerbose(profileConf: Section)
    requires profileConf.Item("minLevel").None? && profileConf.Item("type").Some?
    ensures New(profileConf).Success? && New(profileConf).value.minLevel == Verbose
  {
  }

  /** A level name in any letter case is the minimum level. */
  lemma MinLevelByName(profileConf: Section, l: Level)
    requires profileConf.Item("minLevel").Some? && Lower(profileConf.Item("minLevel").value) == Lower(LevelName(l))
    requires profileConf.Item("type").Some?
    ensures New(profileConf).Success? && New(profileConf).value.minLevel == l
  {
    LevelNameParses(l, profileConf.Item("minLevel").value);
  }

  /** A `minLevel` naming no level makes construction fail, whatever `type`
      holds. */
  lemma InvalidMinLevelFails(profileConf: Section)
    requires profileConf.Item("minLevel").Some?
    requires forall m: Level :: Lower(profileConf.Item("minLevel").value) != Lower(LevelName(m))
    ensures New(profileConf) == Failure(InvalidPropValue(profileConf.path, "minLevel", profileConf.Item("minLevel").value))
  {
    OtherNameFailsToParse(profileConf.Item("minLevel").value);
  }

  /** The type name is lower-case, so types differing only in case select the
      same applier. */
  lemma ProfileTypeNameIsLowerCase(a: Section, b: Section)
    requires New(a).Success? && New(b).Success?
    requires SameKey(a.Item("type").value, b.Item("type").value)
    ensures Lower(New(a).value.profileTypeName) == New(a).value.profileTypeName
    ensures New(a).value.profileTypeName == New(b).value.profileTypeName
  {
    LowerIdempotent(a.Item("type").value);
  }

  /** Writing through the view is seen by reading through the view, and
      leaves the level and type read at construction as they were. */
  lemma WriteThroughView(p: ProfileConfiguration, k: string, v: Option<string>, w: Option<string>)
    ensures p.WithItem(k, v).Item(k) == v
    ensures p.WithValue(w).Value() == w
    ensures p.WithItem(k, v).minLevel == p.minLevel && p.WithItem(k, v).profileTypeName == p.profileTypeName
    ensures p.WithItem(k, v).Path() == p.Path() && p.WithItem(k, v).Key() == p.Key()
  {
    ItemAfterWithItem(p.profileConf, k, v);
  }
}
