/**
 * Lowering parsed command-line arguments into settings records. Each `--x`/`--no-x`
 * pair becomes a tri-state value (set, unset, or left to configuration), giving both
 * halves of a pair is a fatal usage error, and the remaining arguments are copied,
 * filtered or wrapped by fixed rules.
 */
module CliOptions {
  import opened Wrappers

  // Values that are only passed through; their structure does not matter here.
  type Index(==)
  type PipIndex(==)
  type PipExtraIndex(==)
  type PipFindLinks(==)
  type IndexStrategy(==)
  type KeyringProviderType(==)
  type ResolutionMode(==)
  type ForkStrategy(==)
  type ExcludeNewerTimestamp(==)
  type LinkMode(==)
  type ConfigSettingEntry(==)
  type ConfigSettingPackageEntry(==)
  type ExcludeNewerPackageEntry(==)
  type Requirement(==)
  type PackageName(==)
  type StaticMetadataSetting(==)
  type ExtraBuildDependencies(==)

  /** How pre-release versions are treated. */
  datatype PrereleaseMode = Disallow | Allow | IfNecessary | Explicit | IfNecessaryOrExplicit

  /**
   * A value that may have been given explicitly empty (for example through an empty
   * environment variable), which then counts as not given.
   */
  datatype Maybe<T> = Present(value: T) | Absent

  /** The process exit that a usage error ends in. */
  datatype Exit = Exit(code: int, yesFlag: string, noFlag: string)

  /** The exit status of a usage error. */
  const UsageErrorCode := 2

  /**
   * Resolves a `--name`/`--no-name` pair: `Some(true)` for the first, `Some(false)`
   * for the second, `None` for neither; both at once ends the process with status 2.
   */
  function Flag(yes: bool, no: bool, name: string): (r: Result<Option<bool>, Exit>)
    ensures r.Ok? <==> !(yes && no)
    ensures r.Ok? ==> (r.value == Some(true) <==> yes) && (r.value == Some(false) <==> no)
    ensures r.Err? ==> r.error == Exit(UsageErrorCode, "--" + name, "--no-" + name)
  {
    match (yes, no)
    case (true, false) => Ok(Some(true))
    case (false, true) => Ok(Some(false))
    case (false, false) => Ok(None)
    case (true, true) => Err(Exit(UsageErrorCode, "--" + name, "--no-" + name))
  }

  /** The spellings of the flags whose pairs the conversions resolve. */
  lemma FlagSpellings()
    ensures "--" + "no-upgrade" == "--no-upgrade" && "--no-" + "no-upgrade" == "--no-no-upgrade"
    ensures "--" + "build-isolation" == "--build-isolation" && "--no-" + "build-isolation" == "--no-build-isolation"
    ensures "--" + "reinstall" == "--reinstall" && "--no-" + "reinstall" == "--no-reinstall"
    ensures "--" + "compile-bytecode" == "--compile-bytecode" && "--no-" + "compile-bytecode" == "--no-compile-bytecode"
    ensures "--" + "upgrade" == "--upgrade" && "--no-" + "upgrade" == "--no-upgrade"
    ensures "--" + "build" == "--build" && "--no-" + "build" == "--no-build"
    ensures "--" + "binary" == "--binary" && "--no-" + "binary" == "--no-binary"
  {
  }

  /** The arguments handed to `Refresh::from_args`, which is not part of this model. */
  datatype RefreshFromArgs = RefreshFromArgs(refresh: Option<bool>, packages: seq<PackageName>)

  /** `Refresh::from(RefreshArgs)`: the refresh pair is resolved under the name `no-refresh`. */
  function RefreshOf(refresh: bool, noRefresh: bool, refreshPackage: seq<PackageName>): (r: Result<RefreshFromArgs, Exit>)
    ensures r.Ok? <==> !(refresh && noRefresh)
    ensures r.Err? ==> r.error == Exit(UsageErrorCode, "--no-refresh", "--no-no-refresh")
    ensures r.Ok? ==> r.value.packages == refreshPackage
    ensures r.Ok? ==> (r.value.refresh == Some(true) <==> refresh) && (r.value.refresh == Some(false) <==> noRefresh)
  {
    assert "--" + "no-refresh" == "--no-refresh" && "--no-" + "no-refresh" == "--no-no-refresh";
    var flag :- Flag(refresh, noRefresh, "no-refresh");
    Ok(RefreshFromArgs(flag, refreshPackage))
  }

  /** The values of `s` that are present, in order (`filter_map(Maybe::into_option)`). */
  function KeepPresent<T>(s: seq<Maybe<T>>): (r: seq<T>)
    ensures |r| <= |s|
    ensures forall i :: 0 <= i < |s| && s[i].Present? ==> s[i].value in r
    ensures forall j :: 0 <= j < |r| ==> Present(r[j]) in s
  {
    if s == [] then []
    else if s[0].Present? then [s[0].value] + KeepPresent(s[1..])
    else KeepPresent(s[1..])
  }

  /** Keeping the present values distributes over concatenation, so their order is kept. */
  lemma {:induction false} KeepPresentAppend<T>(a: seq<Maybe<T>>, b: seq<Maybe<T>>)
    ensures KeepPresent(a + b) == KeepPresent(a) + KeepPresent(b)
  {
    if a != [] {
      assert (a + b)[0] == a[0];
      assert (a + b)[1..] == a[1..] + b;
      KeepPresentAppend(a[1..], b);
    } else {
      assert a + b == b;
    }
  }

  /** The concatenation of a sequence of sequences (`flat_map`). */
  function Concat<T>(ss: seq<seq<T>>): seq<T>
  {
    if ss == [] then [] else ss[0] + Concat(ss[1..])
  }

  /** The present values of all the groups, group after group. */
  function KeepPresentFlat<T>(ss: seq<seq<Maybe<T>>>): (r: seq<T>)
    ensures r == KeepPresent(Concat(ss))
  {
    if ss == [] then []
    else
      KeepPresentAppend(ss[0], Concat(ss[1..]));
      KeepPresent(ss[0]) + KeepPresentFlat(ss[1..])
  }

  /** A switch that can only turn a setting on: `true` is `Some(true)`, `false` is unset. */
  function OnlyIfSet(b: bool): (r: Option<bool>)
    ensures r != Some(false)
    ensures r.Some? <==> b
  {
    if b then Some(true) else None
  }

  /** `--pre` is shorthand for `--prerelease allow` and wins over it. */
  function Prerelease(pre: bool, prerelease: Option<PrereleaseMode>): (r: Option<PrereleaseMode>)
    ensures pre ==> r == Some(Allow)
    ensures !pre ==> r == prerelease
  {
    if pre then Some(Allow) else prerelease
  }

  /** A package list given on the command line, left unset when it is empty. */
  function NonEmpty<T>(s: seq<T>): (r: Option<seq<T>>)
    ensures r.None? <==> s == []
    ensures r.Some? ==> r.value == s
  {
    if s == [] then None else Some(s)
  }

  /** The arguments that select package indexes. */
  datatype IndexArgs = IndexArgs(
    defaultIndex: Option<Maybe<Index>>,
    index: Option<seq<seq<Maybe<Index>>>>,
    indexUrl: Option<Maybe<PipIndex>>,
    extraIndexUrl: Option<seq<Maybe<PipExtraIndex>>>,
    noIndex: bool,
    findLinks: Option<seq<Maybe<PipFindLinks>>>)

  /**
   * The two operands that the `index` setting is combined from: the default index,
   * then the `--index` values. The combining rule belongs to the settings crate.
   */
  datatype IndexCombination = Combine(defaults: Option<seq<Index>>, indexes: Option<seq<Index>>)

  /** The index-related settings, shared by all three settings records. */
  datatype IndexOptions = IndexOptions(
    index: IndexCombination,
    indexUrl: Option<PipIndex>,
    extraIndexUrl: Option<seq<PipExtraIndex>>,
    noIndex: Option<bool>,
    findLinks: Option<seq<PipFindLinks>>)

  /** `Maybe::into_option` lifted through an outer `Option` (`and_then`). */
  function Flattened<T>(o: Option<Maybe<T>>): (r: Option<T>)
    ensures r.Some? <==> o.Some? && o.value.Present?
    ensures r.Some? ==> r.value == o.value.value
  {
    match o
    case Some(Present(v)) => Some(v)
    case _ => None
  }

  /** The present values of an optional list, the list itself left unset when not given. */
  function PresentValues<T>(o: Option<seq<Maybe<T>>>): (r: Option<seq<T>>)
    ensures r.Some? <==> o.Some?
    ensures r.Some? ==> r.value == KeepPresent(o.value)
  {
    match o
    case None => None
    case Some(s) => Some(KeepPresent(s))
  }

  /** The index settings given by `args`. */
  function LowerIndexArgs(args: IndexArgs): (r: IndexOptions)
    ensures r.index.defaults == (match Flattened(args.defaultIndex) case Some(i) => Some([i]) case None => None)
    ensures r.index.indexes.Some? <==> args.index.Some?
    ensures args.index.Some? ==> r.index.indexes.value == KeepPresent(Concat(args.index.value))
    ensures r.indexUrl == Flattened(args.indexUrl)
    ensures r.extraIndexUrl.Some? <==> args.extraIndexUrl.Some?
    ensures args.extraIndexUrl.Some? ==> r.extraIndexUrl.value == KeepPresent(args.extraIndexUrl.value)
    ensures r.findLinks.Some? <==> args.findLinks.Some?
    ensures args.findLinks.Some? ==> r.findLinks.value == KeepPresent(args.findLinks.value)
    ensures r.noIndex != Some(false) && (r.noIndex == Some(true) <==> args.noIndex)
  {
    var defaults := match Flattened(args.defaultIndex) case Some(i) => Some([i]) case None => None;
    var indexes := match args.index case None => None case Some(groups) => Some(KeepPresentFlat(groups));
    IndexOptions(
      Combine(defaults, indexes),
      Flattened(args.indexUrl),
      PresentValues(args.extraIndexUrl),
      OnlyIfSet(args.noIndex),
      PresentValues(args.findLinks))
  }

  /** The `pip` settings that the conversions below can set; every other one stays unset. */
  datatype PipOptions = PipOptions(
    indexes: IndexOptions,
    indexStrategy: Option<IndexStrategy>,
    keyringProvider: Option<KeyringProviderType>,
    upgrade: Option<bool>,
    upgradePackage: Option<seq<Requirement>>,
    reinstall: Option<bool>,
    reinstallPackage: Option<seq<PackageName>>,
    resolution: Option<ResolutionMode>,
    prerelease: Option<PrereleaseMode>,
    forkStrategy: Option<ForkStrategy>,
    configSettings: Option<seq<ConfigSettingEntry>>,
    configSettingsPackage: Option<seq<ConfigSettingPackageEntry>>,
    noBuildIsolation: Option<bool>,
    noBuildIsolationPackage: Option<seq<PackageName>>,
    excludeNewer: Option<ExcludeNewerTimestamp>,
    excludeNewerPackage: Option<seq<ExcludeNewerPackageEntry>>,
    linkMode: Option<LinkMode>,
    compileBytecode: Option<bool>,
    noSources: Option<bool>)

  /** `PipOptions::from(IndexArgs)`: the index settings, everything else unset. */
  function PipOptionsFromIndexArgs(args: IndexArgs): (r: PipOptions)
    ensures r.indexes == LowerIndexArgs(args)
    ensures r.indexStrategy.None? && r.keyringProvider.None?
    ensures r.upgrade.None? && r.upgradePackage.None? && r.reinstall.None? && r.reinstallPackage.None?
    ensures r.resolution.None? && r.prerelease.None? && r.forkStrategy.None?
    ensures r.configSettings.None? && r.configSettingsPackage.None?
    ensures r.noBuildIsolation.None? && r.noBuildIsolationPackage.None?
    ensures r.excludeNewer.None? && r.excludeNewerPackage.None? && r.linkMode.None?
    ensures r.compileBytecode.None? && r.noSources.None?
  {
    PipOptions(LowerIndexArgs(args), None, None, None, None, None, None, None, None, None,
               None, None, None, None, None, None, None, None, None)
  }

  datatype FetchArgs = FetchArgs(
    indexArgs: IndexArgs,
    indexStrategy: Option<IndexStrategy>,
    keyringProvider: Option<KeyringProviderType>,
    excludeNewer: Option<ExcludeNewerTimestamp>)

  /** `PipOptions::from(FetchArgs)`: the index settings plus three pass-through values. */
  function PipOptionsFromFetchArgs(args: FetchArgs): (r: PipOptions)
    ensures r.indexes == LowerIndexArgs(args.indexArgs)
    ensures r.indexStrategy == args.indexStrategy && r.keyringProvider == args.keyringProvider
    ensures r.excludeNewer == args.excludeNewer
    ensures r.upgrade.None? && r.upgradePackage.None? && r.reinstall.None? && r.reinstallPackage.None?
    ensures r.resolution.None? && r.prerelease.None? && r.forkStrategy.None?
    ensures r.configSettings.None? && r.configSettingsPackage.None?
    ensures r.noBuildIsolation.None? && r.noBuildIsolationPackage.None?
    ensures r.excludeNewerPackage.None? && r.linkMode.None?
    ensures r.compileBytecode.None? && r.noSources.None?
  {
    PipOptionsFromIndexArgs(args.indexArgs).(
      indexStrategy := args.indexStrategy,
      keyringProvider := args.keyringProvider,
      excludeNewer := args.excludeNewer)
  }

  datatype ResolverArgs = ResolverArgs(
    indexArgs: IndexArgs,
    upgrade: bool,
    noUpgrade: bool,
    upgradePackage: seq<Requirement>,
    indexStrategy: Option<IndexStrategy>,
    keyringProvider: Option<KeyringProviderType>,
    resolution: Option<ResolutionMode>,
    prerelease: Option<PrereleaseMode>,
    pre: bool,
    forkStrategy: Option<ForkStrategy>,
    configSetting: Option<seq<ConfigSettingEntry>>,
    configSettingsPackage: Option<seq<ConfigSettingPackageEntry>>,
    noBuildIsolation: bool,
    noBuildIsolationPackage: seq<PackageName>,
    buildIsolation: bool,
    excludeNewer: Option<ExcludeNewerTimestamp>,
    linkMode: Option<LinkMode>,
    noSources: bool,
    excludeNewerPackage: Option<seq<ExcludeNewerPackageEntry>>)

  /**
   * The flag pairs of `ResolverArgs` in the order both of its conversions resolve
   * them, stopping at the first doubled pair. The upgrade pair goes by `no-upgrade`.
   */
  function ResolverArgsFlags(args: ResolverArgs): (r: Result<(Option<bool>, Option<bool>), Exit>)
    ensures r.Ok? <==> !(args.upgrade && args.noUpgrade) && !(args.noBuildIsolation && args.buildIsolation)
    ensures args.upgrade && args.noUpgrade ==> r == Err(Exit(UsageErrorCode, "--no-upgrade", "--no-no-upgrade"))
    ensures !(args.upgrade && args.noUpgrade) && args.noBuildIsolation && args.buildIsolation ==>
      r == Err(Exit(UsageErrorCode, "--build-isolation", "--no-build-isolation"))
    ensures r.Ok? ==> r.value.0 == Flag(args.upgrade, args.noUpgrade, "no-upgrade").value
    ensures r.Ok? ==> r.value.1 == Flag(args.noBuildIsolation, args.buildIsolation, "build-isolation").value
  {
    FlagSpellings();
    var upgrade :- Flag(args.upgrade, args.noUpgrade, "no-upgrade");
    var noBuildIsolation :- Flag(args.noBuildIsolation, args.buildIsolation, "build-isolation");
    Ok((upgrade, noBuildIsolation))
  }

  /**
   * `PipOptions::from(ResolverArgs)`. The upgrade pair is resolved under the name
   * `no-upgrade`, so its conflict message names `--no-upgrade` and `--no-no-upgrade`.
   */
  function PipOptionsFromResolverArgs(args: ResolverArgs): (r: Result<PipOptions, Exit>)
    ensures r.Ok? <==> !(args.upgrade && args.noUpgrade) && !(args.noBuildIsolation && args.buildIsolation)
    ensures args.upgrade && args.noUpgrade ==> r == Err(Exit(UsageErrorCode, "--no-upgrade", "--no-no-upgrade"))
    ensures !(args.upgrade && args.noUpgrade) && args.noBuildIsolation && args.buildIsolation ==>
      r == Err(Exit(UsageErrorCode, "--build-isolation", "--no-build-isolation"))
    ensures r.Err? ==> r.error.code == UsageErrorCode
    ensures r.Ok? ==> r.value.indexes == LowerIndexArgs(args.indexArgs)
    ensures r.Ok? ==> r.value.upgrade == Flag(args.upgrade, args.noUpgrade, "no-upgrade").value
    ensures r.Ok? ==> r.value.upgradePackage == Some(args.upgradePackage)
    ensures r.Ok? ==> r.value.prerelease == Prerelease(args.pre, args.prerelease)
    ensures r.Ok? ==> r.value.noBuildIsolation == Flag(args.noBuildIsolation, args.buildIsolation, "build-isolation").value
    ensures r.Ok? ==> r.value.noBuildIsolationPackage == Some(args.noBuildIsolationPackage)
    ensures r.Ok? ==> r.value.noSources == OnlyIfSet(args.noSources)
    ensures r.Ok? ==> r.value.indexStrategy == args.indexStrategy && r.value.keyringProvider == args.keyringProvider
    ensures r.Ok? ==> r.value.resolution == args.resolution && r.value.forkStrategy == args.forkStrategy
    ensures r.Ok? ==> r.value.configSettings == args.configSetting
    ensures r.Ok? ==> r.value.configSettingsPackage == args.configSettingsPackage
    ensures r.Ok? ==> r.value.excludeNewer == args.excludeNewer && r.value.excludeNewerPackage == args.excludeNewerPackage
    ensures r.Ok? ==> r.value.linkMode == args.linkMode
    ensures r.Ok? ==> r.value.reinstall.None? && r.value.reinstallPackage.None? && r.value.compileBytecode.None?
  {
    var flags :- ResolverArgsFlags(args);
    Ok(PipOptionsFromIndexArgs(args.indexArgs).(
      upgrade := flags.0,
      upgradePackage := Some(args.upgradePackage),
      indexStrategy := args.indexStrategy,
      keyringProvider := args.keyringProvider,
      resolution := args.resolution,
      forkStrategy := args.forkStrategy,
      prerelease := Prerelease(args.pre, args.prerelease),
      configSettings := args.configSetting,
      configSettingsPackage := args.configSettingsPackage,
      noBuildIsolation := flags.1,
      noBuildIsolationPackage := Some(args.noBuildIsolationPackage),
      excludeNewer := args.excludeNewer,
      excludeNewerPackage := args.excludeNewerPackage,
      linkMode := args.linkMode,
      noSources := OnlyIfSet(args.noSources)))
  }

  datatype InstallerArgs = InstallerArgs(
    indexArgs: IndexArgs,
    reinstall: bool,
    noReinstall: bool,
    reinstallPackage: seq<PackageName>,
    indexStrategy: Option<IndexStrategy>,
    keyringProvider: Option<KeyringProviderType>,
    configSetting: Option<seq<ConfigSettingEntry>>,
    configSettingsPackage: Option<seq<ConfigSettingPackageEntry>>,
    noBuildIsolation: bool,
    buildIsolation: bool,
    excludeNewer: Option<ExcludeNewerTimestamp>,
    linkMode: Option<LinkMode>,
    compileBytecode: bool,
    noCompileBytecode: bool,
    noSources: bool,
    excludeNewerPackage: Option<seq<ExcludeNewerPackageEntry>>)

  /**
   * The flag pairs of `InstallerArgs` in the order its conversion resolves them,
   * stopping at the first doubled pair.
   */
  function InstallerArgsFlags(args: InstallerArgs): (r: Result<(Option<bool>, Option<bool>, Option<bool>), Exit>)
    ensures r.Ok? <==> !(args.reinstall && args.noReinstall) && !(args.noBuildIsolation && args.buildIsolation)
                       && !(args.compileBytecode && args.noCompileBytecode)
    ensures args.reinstall && args.noReinstall ==> r == Err(Exit(UsageErrorCode, "--reinstall", "--no-reinstall"))
    ensures !(args.reinstall && args.noReinstall) && args.noBuildIsolation && args.buildIsolation ==>
      r == Err(Exit(UsageErrorCode, "--build-isolation", "--no-build-isolation"))
    ensures !(args.reinstall && args.noReinstall) && !(args.noBuildIsolation && args.buildIsolation)
            && args.compileBytecode && args.noCompileBytecode ==>
      r == Err(Exit(UsageErrorCode, "--compile-bytecode", "--no-compile-bytecode"))
    ensures r.Ok? ==> r.value.0 == Flag(args.reinstall, args.noReinstall, "reinstall").value
    ensures r.Ok? ==> r.value.1 == Flag(args.noBuildIsolation, args.buildIsolation, "build-isolation").value
    ensures r.Ok? ==> r.value.2 == Flag(args.compileBytecode, args.noCompileBytecode, "compile-bytecode").value
  {
    FlagSpellings();
    var reinstall :- Flag(args.reinstall, args.noReinstall, "reinstall");
    var noBuildIsolation :- Flag(args.noBuildIsolation, args.buildIsolation, "build-isolation");
    var compileBytecode :- Flag(args.compileBytecode, args.noCompileBytecode, "compile-bytecode");
    Ok((reinstall, noBuildIsolation, compileBytecode))
  }

  /** `PipOptions::from(InstallerArgs)`. */
  function PipOptionsFromInstallerArgs(args: InstallerArgs): (r: Result<PipOptions, Exit>)
    ensures r.Ok? <==> !(args.reinstall && args.noReinstall) && !(args.noBuildIsolation && args.buildIsolation)
                       && !(args.compileBytecode && args.noCompileBytecode)
    ensures args.reinstall && args.noReinstall ==> r == Err(Exit(UsageErrorCode, "--reinstall", "--no-reinstall"))
    ensures !(args.reinstall && args.noReinstall) && args.noBuildIsolation && args.buildIsolation ==>
      r == Err(Exit(UsageErrorCode, "--build-isolation", "--no-build-isolation"))
    ensures !(args.reinstall && args.noReinstall) && !(args.noBuildIsolation && args.buildIsolation)
            && args.compileBytecode && args.noCompileBytecode ==>
      r == Err(Exit(UsageErrorCode, "--compile-bytecode", "--no-compile-bytecode"))
    ensures r.Err? ==> r.error.code == UsageErrorCode
    ensures r.Ok? ==> r.value.indexes == LowerIndexArgs(args.indexArgs)
    ensures r.Ok? ==> r.value.reinstall == Flag(args.reinstall, args.noReinstall, "reinstall").value
    ensures r.Ok? ==> r.value.reinstallPackage == Some(args.reinstallPackage)
    ensures r.Ok? ==> r.value.noBuildIsolation == Flag(args.noBuildIsolation, args.buildIsolation, "build-isolation").value
    ensures r.Ok? ==> r.value.compileBytecode == Flag(args.compileBytecode, args.noCompileBytecode, "compile-bytecode").value
    ensures r.Ok? ==> r.value.noSources == OnlyIfSet(args.noSources)
    ensures r.Ok? ==> r.value.indexStrategy == args.indexStrategy && r.value.keyringProvider == args.keyringProvider
    ensures r.Ok? ==> r.value.configSettings == args.configSetting
    ensures r.Ok? ==> r.value.configSettingsPackage == args.configSettingsPackage
    ensures r.Ok? ==> r.value.excludeNewer == args.excludeNewer && r.value.excludeNewerPackage == args.excludeNewerPackage
    ensures r.Ok? ==> r.value.linkMode == args.linkMode
    ensures r.Ok? ==> r.value.upgrade.None? && r.value.upgradePackage.None? && r.value.prerelease.None?
    ensures r.Ok? ==> r.value.resolution.None? && r.value.forkStrategy.None? && r.value.noBuildIsolationPackage.None?
  {
    var flags :- InstallerArgsFlags(args);
    Ok(PipOptionsFromIndexArgs(args.indexArgs).(
      reinstall := flags.0,
      reinstallPackage := Some(args.reinstallPackage),
      indexStrategy := args.indexStrategy,
      keyringProvider := args.keyringProvider,
      configSettings := args.configSetting,
      configSettingsPackage := args.configSettingsPackage,
      noBuildIsolation := flags.1,
      excludeNewer := args.excludeNewer,
      excludeNewerPackage := args.excludeNewerPackage,
      linkMode := args.linkMode,
      compileBytecode := flags.2,
      noSources := OnlyIfSet(args.noSources)))
  }

  datatype ResolverInstallerArgs = ResolverInstallerArgs(
    indexArgs: IndexArgs,
    upgrade: bool,
    noUpgrade: bool,
    upgradePackage: seq<Requirement>,
    reinstall: bool,
    noReinstall: bool,
    reinstallPackage: seq<PackageName>,
    indexStrategy: Option<IndexStrategy>,
    keyringProvider: Option<KeyringProviderType>,
    resolution: Option<ResolutionMode>,
    prerelease: Option<PrereleaseMode>,
    pre: bool,
    forkStrategy: Option<ForkStrategy>,
    configSetting: Option<seq<ConfigSettingEntry>>,
    configSettingsPackage: Option<seq<ConfigSettingPackageEntry>>,
    noBuildIsolation: bool,
    noBuildIsolationPackage: seq<PackageName>,
    buildIsolation: bool,
    excludeNewer: Option<ExcludeNewerTimestamp>,
    linkMode: Option<LinkMode>,
    compileBytecode: bool,
    noCompileBytecode: bool,
    noSources: bool,
    excludeNewerPackage: Option<seq<ExcludeNewerPackageEntry>>)

  /** Whether any `--x`/`--no-x` pair of the resolver-installer arguments is given twice. */
  predicate ResolverInstallerConflict(args: ResolverInstallerArgs)
  {
    || (args.upgrade && args.noUpgrade)
    || (args.reinstall && args.noReinstall)
    || (args.noBuildIsolation && args.buildIsolation)
    || (args.compileBytecode && args.noCompileBytecode)
  }

  /**
   * The flag pairs of `ResolverInstallerArgs` in the order both of its conversions
   * resolve them, stopping at the first doubled pair.
   */
  function ResolverInstallerArgsFlags(args: ResolverInstallerArgs)
    : (r: Result<(Option<bool>, Option<bool>, Option<bool>, Option<bool>), Exit>)
    ensures r.Ok? <==> !ResolverInstallerConflict(args)
    ensures args.upgrade && args.noUpgrade ==> r == Err(Exit(UsageErrorCode, "--upgrade", "--no-upgrade"))
    ensures !(args.upgrade && args.noUpgrade) && args.reinstall && args.noReinstall ==>
      r == Err(Exit(UsageErrorCode, "--reinstall", "--no-reinstall"))
    ensures !(args.upgrade && args.noUpgrade) && !(args.reinstall && args.noReinstall)
            && args.noBuildIsolation && args.buildIsolation ==>
      r == Err(Exit(UsageErrorCode, "--build-isolation", "--no-build-isolation"))
    ensures !(args.upgrade && args.noUpgrade) && !(args.reinstall && args.noReinstall)
            && !(args.noBuildIsolation && args.buildIsolation) && args.compileBytecode && args.noCompileBytecode ==>
      r == Err(Exit(UsageErrorCode, "--compile-bytecode", "--no-compile-bytecode"))
    ensures r.Ok? ==> r.value.0 == Flag(args.upgrade, args.noUpgrade, "upgrade").value
    ensures r.Ok? ==> r.value.1 == Flag(args.reinstall, args.noReinstall, "reinstall").value
    ensures r.Ok? ==> r.value.2 == Flag(args.noBuildIsolation, args.buildIsolation, "build-isolation").value
    ensures r.Ok? ==> r.value.3 == Flag(args.compileBytecode, args.noCompileBytecode, "compile-bytecode").value
  {
    FlagSpellings();
    var upgrade :- Flag(args.upgrade, args.noUpgrade, "upgrade");
    var reinstall :- Flag(args.reinstall, args.noReinstall, "reinstall");
    var noBuildIsolation :- Flag(args.noBuildIsolation, args.buildIsolation, "build-isolation");
    var compileBytecode :- Flag(args.compileBytecode, args.noCompileBytecode, "compile-bytecode");
    Ok((upgrade, reinstall, noBuildIsolation, compileBytecode))
  }

  /** `PipOptions::from(ResolverInstallerArgs)`. */
  function PipOptionsFromResolverInstallerArgs(args: ResolverInstallerArgs): (r: Result<PipOptions, Exit>)
    ensures r.Ok? <==> !ResolverInstallerConflict(args)
    ensures args.upgrade && args.noUpgrade ==> r == Err(Exit(UsageErrorCode, "--upgrade", "--no-upgrade"))
    ensures !(args.upgrade && args.noUpgrade) && args.reinstall && args.noReinstall ==>
      r == Err(Exit(UsageErrorCode, "--reinstall", "--no-reinstall"))
    ensures !(args.upgrade && args.noUpgrade) && !(args.reinstall && args.noReinstall)
            && args.noBuildIsolation && args.buildIsolation ==>
      r == Err(Exit(UsageErrorCode, "--build-isolation", "--no-build-isolation"))
    ensures !(args.upgrade && args.noUpgrade) && !(args.reinstall && args.noReinstall)
            && !(args.noBuildIsolation && args.buildIsolation) && args.compileBytecode && args.noCompileBytecode ==>
      r == Err(Exit(UsageErrorCode, "--compile-bytecode", "--no-compile-bytecode"))
    ensures r.Err? ==> r.error.code == UsageErrorCode
    ensures r.Ok? ==> r.value.indexes == LowerIndexArgs(args.indexArgs)
    ensures r.Ok? ==> r.value.upgrade == Flag(args.upgrade, args.noUpgrade, "upgrade").value
    ensures r.Ok? ==> r.value.upgradePackage == Some(args.upgradePackage)
    ensures r.Ok? ==> r.value.reinstall == Flag(args.reinstall, args.noReinstall, "reinstall").value
    ensures r.Ok? ==> r.value.reinstallPackage == Some(args.reinstallPackage)
    ensures r.Ok? ==> r.value.prerelease == Prerelease(args.pre, args.prerelease)
    ensures r.Ok? ==> r.value.noBuildIsolation == Flag(args.noBuildIsolation, args.buildIsolation, "build-isolation").value
    ensures r.Ok? ==> r.value.noBuildIsolationPackage == Some(args.noBuildIsolationPackage)
    ensures r.Ok? ==> r.value.compileBytecode == Flag(args.compileBytecode, args.noCompileBytecode, "compile-bytecode").value
    ensures r.Ok? ==> r.value.noSources == OnlyIfSet(args.noSources)
    ensures r.Ok? ==> r.value.indexStrategy == args.indexStrategy && r.value.keyringProvider == args.keyringProvider
    ensures r.Ok? ==> r.value.resolution == args.resolution && r.value.forkStrategy == args.forkStrategy
    ensures r.Ok? ==> r.value.configSettings == args.configSetting
    ensures r.Ok? ==> r.value.configSettingsPackage == args.configSettingsPackage
    ensures r.Ok? ==> r.value.excludeNewer == args.excludeNewer && r.value.excludeNewerPackage == args.excludeNewerPackage
    ensures r.Ok? ==> r.value.linkMode == args.linkMode
  {
    var flags :- ResolverInstallerArgsFlags(args);
    Ok(PipOptionsFromIndexArgs(args.indexArgs).(
      upgrade := flags.0,
      upgradePackage := Some(args.upgradePackage),
      reinstall := flags.1,
      reinstallPackage := Some(args.reinstallPackage),
      indexStrategy := args.indexStrategy,
      keyringProvider := args.keyringProvider,
      resolution := args.resolution,
      prerelease := Prerelease(args.pre, args.prerelease),
      forkStrategy := args.forkStrategy,
      configSettings := args.configSetting,
      configSettingsPackage := args.configSettingsPackage,
      noBuildIsolation := flags.2,
      noBuildIsolationPackage := Some(args.noBuildIsolationPackage),
      excludeNewer := args.excludeNewer,
      excludeNewerPackage := args.excludeNewerPackage,
      linkMode := args.linkMode,
      compileBytecode := flags.3,
      noSources := OnlyIfSet(args.noSources)))
  }

  datatype BuildOptionsArgs = BuildOptionsArgs(
    noBuild: bool,
    build: bool,
    noBuildPackage: seq<PackageName>,
    noBinary: bool,
    binary: bool,
    noBinaryPackage: seq<PackageName>)

  /**
   * The build pairs, resolved after the other pairs of a conversion: `--no-build`
   * before `--no-binary`, with the "no" half as the flag's first argument.
   */
  function BuildFlags(build: BuildOptionsArgs): (r: Result<(Option<bool>, Option<bool>), Exit>)
    ensures r.Ok? <==> !(build.noBuild && build.build) && !(build.noBinary && build.binary)
    ensures build.noBuild && build.build ==> r == Err(Exit(UsageErrorCode, "--build", "--no-build"))
    ensures !(build.noBuild && build.build) && build.noBinary && build.binary ==>
      r == Err(Exit(UsageErrorCode, "--binary", "--no-binary"))
    ensures r.Ok? ==> r.value.0 == Flag(build.noBuild, build.build, "build").value
    ensures r.Ok? ==> r.value.1 == Flag(build.noBinary, build.binary, "binary").value
  {
    FlagSpellings();
    var noBuild :- Flag(build.noBuild, build.build, "build");
    var noBinary :- Flag(build.noBinary, build.binary, "binary");
    Ok((noBuild, noBinary))
  }

  /** `unwrap_or_default` on an optional list: a missing list is the empty one. */
  function OrEmpty<T>(o: Option<seq<T>>): (r: seq<T>)
    ensures o.None? ==> r == []
    ensures o.Some? ==> r == o.value
  {
    match o
    case Some(s) => s
    case None => []
  }

  /** The arguments handed to `ExcludeNewer::from_args`, which is not part of this model. */
  datatype ExcludeNewerFromArgs = ExcludeNewerFromArgs(
    global: Option<ExcludeNewerTimestamp>,
    packages: seq<ExcludeNewerPackageEntry>)

  /** The resolver settings of a project command. */
  datatype ResolverOptions = ResolverOptions(
    indexes: IndexOptions,
    upgrade: Option<bool>,
    upgradePackage: Option<seq<Requirement>>,
    indexStrategy: Option<IndexStrategy>,
    keyringProvider: Option<KeyringProviderType>,
    resolution: Option<ResolutionMode>,
    prerelease: Option<PrereleaseMode>,
    forkStrategy: Option<ForkStrategy>,
    dependencyMetadata: Option<StaticMetadataSetting>,
    configSettings: Option<seq<ConfigSettingEntry>>,
    configSettingsPackage: Option<seq<ConfigSettingPackageEntry>>,
    noBuildIsolation: Option<bool>,
    noBuildIsolationPackage: Option<seq<PackageName>>,
    extraBuildDependencies: Option<ExtraBuildDependencies>,
    excludeNewer: ExcludeNewerFromArgs,
    linkMode: Option<LinkMode>,
    noBuild: Option<bool>,
    noBuildPackage: Option<seq<PackageName>>,
    noBinary: Option<bool>,
    noBinaryPackage: Option<seq<PackageName>>,
    noSources: Option<bool>)

  /** Whether any `--x`/`--no-x` pair of the resolver and build arguments is given twice. */
  predicate ResolverConflict(args: ResolverArgs, build: BuildOptionsArgs)
  {
    || (args.upgrade && args.noUpgrade)
    || (args.noBuildIsolation && args.buildIsolation)
    || (build.noBuild && build.build)
    || (build.noBinary && build.binary)
  }

  /**
   * `resolver_options`: every package list is kept as given, even when empty, and
   * the "no" half of each build pair is the flag's first argument.
   */
  function ResolverOptionsOf(args: ResolverArgs, build: BuildOptionsArgs): (r: Result<ResolverOptions, Exit>)
    ensures r.Ok? <==> !ResolverConflict(args, build)
    ensures args.upgrade && args.noUpgrade ==> r == Err(Exit(UsageErrorCode, "--no-upgrade", "--no-no-upgrade"))
    ensures !(args.upgrade && args.noUpgrade) && args.noBuildIsolation && args.buildIsolation ==>
      r == Err(Exit(UsageErrorCode, "--build-isolation", "--no-build-isolation"))
    ensures !(args.upgrade && args.noUpgrade) && !(args.noBuildIsolation && args.buildIsolation)
            && build.noBuild && build.build ==>
      r == Err(Exit(UsageErrorCode, "--build", "--no-build"))
    ensures !(args.upgrade && args.noUpgrade) && !(args.noBuildIsolation && args.buildIsolation)
            && !(build.noBuild && build.build) && build.noBinary && build.binary ==>
      r == Err(Exit(UsageErrorCode, "--binary", "--no-binary"))
    ensures r.Err? ==> r.error.code == UsageErrorCode
    ensures r.Ok? ==> r.value.indexes == LowerIndexArgs(args.indexArgs)
    ensures r.Ok? ==> r.value.upgrade == Flag(args.upgrade, args.noUpgrade, "no-upgrade").value
    ensures r.Ok? ==> r.value.prerelease == Prerelease(args.pre, args.prerelease)
    ensures r.Ok? ==> r.value.upgradePackage == Some(args.upgradePackage)
    ensures r.Ok? ==> r.value.noBuildIsolationPackage == Some(args.noBuildIsolationPackage)
    ensures r.Ok? ==> r.value.noBuildPackage == Some(build.noBuildPackage)
    ensures r.Ok? ==> r.value.noBinaryPackage == Some(build.noBinaryPackage)
    ensures r.Ok? ==> r.value.noBuildIsolation == Flag(args.noBuildIsolation, args.buildIsolation, "build-isolation").value
    ensures r.Ok? ==> r.value.noBuild == Flag(build.noBuild, build.build, "build").value
    ensures r.Ok? ==> r.value.noBinary == Flag(build.noBinary, build.binary, "binary").value
    ensures r.Ok? ==> r.value.dependencyMetadata.None? && r.value.extraBuildDependencies.None?
    ensures r.Ok? ==> r.value.excludeNewer == ExcludeNewerFromArgs(args.excludeNewer, OrEmpty(args.excludeNewerPackage))
    ensures r.Ok? ==> r.value.noSources == OnlyIfSet(args.noSources)
    ensures r.Ok? ==> r.value.indexStrategy == args.indexStrategy && r.value.keyringProvider == args.keyringProvider
    ensures r.Ok? ==> r.value.resolution == args.resolution && r.value.forkStrategy == args.forkStrategy
    ensures r.Ok? ==> r.value.configSettings == args.configSetting
    ensures r.Ok? ==> r.value.configSettingsPackage == args.configSettingsPackage
    ensures r.Ok? ==> r.value.linkMode == args.linkMode
  {
    var flags :- ResolverArgsFlags(args);
    var buildFlags :- BuildFlags(build);
    var upgrade, noBuildIsolation, noBuild, noBinary := flags.0, flags.1, buildFlags.0, buildFlags.1;
    Ok(ResolverOptions(
      LowerIndexArgs(args.indexArgs),
      upgrade,
      Some(args.upgradePackage),
      args.indexStrategy,
      args.keyringProvider,
      args.resolution,
      Prerelease(args.pre, args.prerelease),
      args.forkStrategy,
      None,
      args.configSetting,
      args.configSettingsPackage,
      noBuildIsolation,
      Some(args.noBuildIsolationPackage),
      None,
      ExcludeNewerFromArgs(args.excludeNewer, OrEmpty(args.excludeNewerPackage)),
      args.linkMode,
      noBuild,
      Some(build.noBuildPackage),
      noBinary,
      Some(build.noBinaryPackage),
      OnlyIfSet(args.noSources)))
  }

  /** The resolver and installer settings of a project command. */
  datatype ResolverInstallerOptions = ResolverInstallerOptions(
    indexes: IndexOptions,
    upgrade: Option<bool>,
    upgradePackage: Option<seq<Requirement>>,
    reinstall: Option<bool>,
    reinstallPackage: Option<seq<PackageName>>,
    indexStrategy: Option<IndexStrategy>,
    keyringProvider: Option<KeyringProviderType>,
    resolution: Option<ResolutionMode>,
    prerelease: Option<PrereleaseMode>,
    forkStrategy: Option<ForkStrategy>,
    dependencyMetadata: Option<StaticMetadataSetting>,
    configSettings: Option<seq<ConfigSettingEntry>>,
    configSettingsPackage: Option<seq<ConfigSettingPackageEntry>>,
    noBuildIsolation: Option<bool>,
    noBuildIsolationPackage: Option<seq<PackageName>>,
    extraBuildDependencies: Option<ExtraBuildDependencies>,
    excludeNewer: Option<ExcludeNewerTimestamp>,
    excludeNewerPackage: Option<seq<ExcludeNewerPackageEntry>>,
    linkMode: Option<LinkMode>,
    compileBytecode: Option<bool>,
    noBuild: Option<bool>,
    noBuildPackage: Option<seq<PackageName>>,
    noBinary: Option<bool>,
    noBinaryPackage: Option<seq<PackageName>>,
    noSources: Option<bool>)

  /**
   * `resolver_installer_options`: unlike `resolver_options`, an empty package list is
   * left unset rather than kept as an empty list.
   */
  function ResolverInstallerOptionsOf(args: ResolverInstallerArgs, build: BuildOptionsArgs): (r: Result<ResolverInstallerOptions, Exit>)
    ensures r.Ok? <==> !ResolverInstallerConflict(args) && !(build.noBuild && build.build)
                       && !(build.noBinary && build.binary)
    ensures args.upgrade && args.noUpgrade ==> r == Err(Exit(UsageErrorCode, "--upgrade", "--no-upgrade"))
    ensures !(args.upgrade && args.noUpgrade) && args.reinstall && args.noReinstall ==>
      r == Err(Exit(UsageErrorCode, "--reinstall", "--no-reinstall"))
    ensures !(args.upgrade && args.noUpgrade) && !(args.reinstall && args.noReinstall)
            && args.noBuildIsolation && args.buildIsolation ==>
      r == Err(Exit(UsageErrorCode, "--build-isolation", "--no-build-isolation"))
    ensures !(args.upgrade && args.noUpgrade) && !(args.reinstall && args.noReinstall)
            && !(args.noBuildIsolation && args.buildIsolation) && args.compileBytecode && args.noCompileBytecode ==>
      r == Err(Exit(UsageErrorCode, "--compile-bytecode", "--no-compile-bytecode"))
    ensures !ResolverInstallerConflict(args) && build.noBuild && build.build ==>
      r == Err(Exit(UsageErrorCode, "--build", "--no-build"))
    ensures !ResolverInstallerConflict(args) && !(build.noBuild && build.build) && build.noBinary && build.binary ==>
      r == Err(Exit(UsageErrorCode, "--binary", "--no-binary"))
    ensures r.Err? ==> r.error.code == UsageErrorCode
    ensures r.Ok? ==> r.value.indexes == LowerIndexArgs(args.indexArgs)
    ensures r.Ok? ==> r.value.upgrade == Flag(args.upgrade, args.noUpgrade, "upgrade").value
    ensures r.Ok? ==> r.value.reinstall == Flag(args.reinstall, args.noReinstall, "reinstall").value
    ensures r.Ok? ==> r.value.prerelease == Prerelease(args.pre, args.prerelease)
    ensures r.Ok? ==> r.value.upgradePackage == NonEmpty(args.upgradePackage)
    ensures r.Ok? ==> r.value.reinstallPackage == NonEmpty(args.reinstallPackage)
    ensures r.Ok? ==> r.value.noBuildIsolationPackage == NonEmpty(args.noBuildIsolationPackage)
    ensures r.Ok? ==> r.value.noBuildPackage == NonEmpty(build.noBuildPackage)
    ensures r.Ok? ==> r.value.noBinaryPackage == NonEmpty(build.noBinaryPackage)
    ensures r.Ok? ==> r.value.noBuildIsolation == Flag(args.noBuildIsolation, args.buildIsolation, "build-isolation").value
    ensures r.Ok? ==> r.value.noBuild == Flag(build.noBuild, build.build, "build").value
    ensures r.Ok? ==> r.value.noBinary == Flag(build.noBinary, build.binary, "binary").value
    ensures r.Ok? ==> r.value.compileBytecode == Flag(args.compileBytecode, args.noCompileBytecode, "compile-bytecode").value
    ensures r.Ok? ==> r.value.dependencyMetadata.None? && r.value.extraBuildDependencies.None?
    ensures r.Ok? ==> r.value.noSources == OnlyIfSet(args.noSources)
    ensures r.Ok? ==> r.value.indexStrategy == args.indexStrategy && r.value.keyringProvider == args.keyringProvider
    ensures r.Ok? ==> r.value.resolution == args.resolution && r.value.forkStrategy == args.forkStrategy
    ensures r.Ok? ==> r.value.configSettings == args.configSetting
    ensures r.Ok? ==> r.value.configSettingsPackage == args.configSettingsPackage
    ensures r.Ok? ==> r.value.excludeNewer == args.excludeNewer && r.value.excludeNewerPackage == args.excludeNewerPackage
    ensures r.Ok? ==> r.value.linkMode == args.linkMode
  {
    var flags :- ResolverInstallerArgsFlags(args);
    var buildFlags :- BuildFlags(build);
    var upgrade, reinstall, noBuildIsolation, compileBytecode := flags.0, flags.1, flags.2, flags.3;
    var noBuild, noBinary := buildFlags.0, buildFlags.1;
    Ok(ResolverInstallerOptions(
      LowerIndexArgs(args.indexArgs),
      upgrade,
      NonEmpty(args.upgradePackage),
      reinstall,
      NonEmpty(args.reinstallPackage),
      args.indexStrategy,
      args.keyringProvider,
      args.resolution,
      Prerelease(args.pre, args.prerelease),
      args.forkStrategy,
      None,
      args.configSetting,
      args.configSettingsPackage,
      noBuildIsolation,
      NonEmpty(args.noBuildIsolationPackage),
      None,
      args.excludeNewer,
      args.excludeNewerPackage,
      args.linkMode,
      compileBytecode,
      noBuild,
      NonEmpty(build.noBuildPackage),
      noBinary,
      NonEmpty(build.noBinaryPackage),
      OnlyIfSet(args.noSources)))
  }

  /**
   * The two ways of lowering resolver arguments agree on every setting they share,
   * whatever the build arguments are, as long as neither ends in a usage error.
   */
  lemma ResolverLoweringsAgree(args: ResolverArgs, build: BuildOptionsArgs)
    requires PipOptionsFromResolverArgs(args).Ok? && ResolverOptionsOf(args, build).Ok?
    ensures var pip, res := PipOptionsFromResolverArgs(args).value, ResolverOptionsOf(args, build).value;
      && pip.indexes == res.indexes && pip.upgrade == res.upgrade
      && pip.upgradePackage == res.upgradePackage && pip.prerelease == res.prerelease
      && pip.noBuildIsolation == res.noBuildIsolation
      && pip.noBuildIsolationPackage == res.noBuildIsolationPackage
      && pip.configSettings == res.configSettings && pip.noSources == res.noSources
      && pip.indexStrategy == res.indexStrategy && pip.keyringProvider == res.keyringProvider
      && pip.resolution == res.resolution && pip.forkStrategy == res.forkStrategy
      && pip.configSettingsPackage == res.configSettingsPackage && pip.linkMode == res.linkMode
  {
  }

  /** The only way a lowering fails is a usage error, and then only through a doubled pair. */
  lemma FlagConflictIsTheOnlyFailure(args: ResolverInstallerArgs, build: BuildOptionsArgs)
    ensures ResolverInstallerOptionsOf(args, build).Err? ==>
      ResolverInstallerConflict(args) || (build.noBuild && build.build) || (build.noBinary && build.binary)
    ensures PipOptionsFromResolverInstallerArgs(args).Err? ==> ResolverInstallerOptionsOf(args, build).Err?
  {
  }

  /**
   * The `pip` conversion and `resolver_installer_options` agree on every flag and on
   * every setting passed through, and their package lists agree exactly when the list
   * given is not empty.
   */
  lemma ResolverInstallerLoweringsAgree(args: ResolverInstallerArgs, build: BuildOptionsArgs)
    requires PipOptionsFromResolverInstallerArgs(args).Ok? && ResolverInstallerOptionsOf(args, build).Ok?
    ensures var pip, res := PipOptionsFromResolverInstallerArgs(args).value, ResolverInstallerOptionsOf(args, build).value;
      && pip.indexes == res.indexes && pip.upgrade == res.upgrade && pip.reinstall == res.reinstall
      && pip.prerelease == res.prerelease && pip.noBuildIsolation == res.noBuildIsolation
      && pip.compileBytecode == res.compileBytecode && pip.noSources == res.noSources
      && pip.indexStrategy == res.indexStrategy && pip.keyringProvider == res.keyringProvider
      && pip.resolution == res.resolution && pip.forkStrategy == res.forkStrategy
      && pip.configSettings == res.configSettings && pip.configSettingsPackage == res.configSettingsPackage
      && pip.excludeNewer == res.excludeNewer && pip.excludeNewerPackage == res.excludeNewerPackage
      && pip.linkMode == res.linkMode
      && (pip.upgradePackage == res.upgradePackage <==> args.upgradePackage != [])
      && (pip.reinstallPackage == res.reinstallPackage <==> args.reinstallPackage != [])
      && (pip.noBuildIsolationPackage == res.noBuildIsolationPackage <==> args.noBuildIsolationPackage != [])
  {
  }
}
