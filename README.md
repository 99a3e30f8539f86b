# A verified model of four pieces of uv

This project models four small, self-contained parts of uv, the Python package
installer, in Dafny. It proves the properties their code promises.

- **Target triples** (`target_triple.dfy`, modules `PlatformTags` and `TargetTriples`).
  - `--python-platform` accepts 38 targets. Each has tables for its wheel platform tag
    (operating system, with glibc, musl, macOS or Pyodide version, and architecture),
    for the six PEP 508 platform markers, and for manylinux compatibility.
  - The macOS deployment target is read from `MACOSX_DEPLOYMENT_TARGET`.
  - `Markers` rebuilds a marker environment for a target.
- **Static dependency metadata** (`dependency_metadata.dfy`, module `DependencyMetadataIndex`).
  - `FromEntries` indexes user-supplied metadata entries by package name.
  - `Get` looks up the metadata for a package at a version, or for a package with no version.
- **Command-line flag pairs and option lowering** (`options.dfy`, module `CliOptions`).
  - `--x`/`--no-x` pairs become tri-state settings. Giving both halves is a fatal usage
    error with exit status 2.
  - Parsed argument groups are lowered into the `pip` settings, the resolver settings and
    the resolver-installer settings.
- **`uv pip uninstall` target selection** (`uninstall.dfy`, module `PipUninstall`).
  - Requirements are split into named ones and URL ones. Each side is sorted and
    deduplicated, then looked up among the installed distributions.
  - The distributions found are sorted and deduplicated by install path.
  - Then either nothing happens (empty plan or dry run) or each one is removed in order.

Supporting modules:

- `wrappers.dfy`: `Option` and `Result`.
- `text.dfy`, module `Text`: Rust's `str::split` with a `char` pattern, `str::parse::<u16>`
  and the decimal rendering of integers.
- `ordering.dfy`, module `Ordering`:
  - the lexicographic order Rust derives for strings and paths, proved to be a strict
    total order;
  - a sort-and-deduplicate-by-key method;
  - a lemma that a strictly sorted result is unique.

`dependency_metadata.rs`, `uninstall.rs`, `options.rs` and `target_triple.rs` are modelled
on the code as written. Each `options.rs` conversion resolves its flag pairs in the order
its fields are written and exits at the first doubled pair, naming that pair's two
spellings. Two quirks of that code are kept as they are:

- the `ResolverArgs` conversions resolve the upgrade pair under the name `no-upgrade`, so
  their conflict message names `--no-upgrade` and `--no-no-upgrade`;
- `resolver_options` keeps empty package lists, while `resolver_installer_options` drops them.

## Model

| member | source | states |
|---|---|---|
| `TargetTriples.MacosDeploymentTarget` | crates/uv-configuration/src/target_triple.rs:776-787 | An unset variable gives no deployment target. A set one gives a target exactly when the text before the first `.` and the minor text both parse as `u16`. The minor text is the piece after the first `.`, or `0` when there is none. The two parsed values are the major and minor version, so `12.x` gives none and `+12` gives 12.0. |
| `TargetTriples.MacosOs` | crates/uv-configuration/src/target_triple.rs:248-252 | The macOS tag is the parsed deployment target, or 13.0 when there is none. |
| `TargetTriples.PlatformOf` | crates/uv-configuration/src/target_triple.rs:237-465 | The OS tag is Windows exactly for the three Windows triples, macOS exactly for the three Apple triples, musllinux exactly for the two musl triples and Pyodide (version 2024.0) exactly for the wasm triple. The architecture is wasm32 only for the wasm triple and x86 only for `i686-pc-windows-msvc`. |
| `TargetTriples.PlatformMachine` | crates/uv-configuration/src/target_triple.rs:468-506 | `platform_machine` is the name of the platform's architecture, for every deployment target. The exception is Apple Silicon, which reports `arm64`. |
| `TargetTriples.PlatformSystem` | crates/uv-configuration/src/target_triple.rs:509-547 | `platform_system` is determined by the kind of OS tag: `Linux` for manylinux and musllinux, `Windows`, `Darwin` for macOS and `Emscripten` for Pyodide. |
| `TargetTriples.PlatformVersion` | crates/uv-configuration/src/target_triple.rs:550-591 | `platform_version` is `#1` for Pyodide 2024 and empty for every other target. |
| `TargetTriples.PlatformRelease` | crates/uv-configuration/src/target_triple.rs:594-634 | `platform_release` is `3.1.58` for Pyodide 2024 and empty for every other target. |
| `TargetTriples.OsName` | crates/uv-configuration/src/target_triple.rs:637-675 | `os_name` is `nt` when `platform_system` is `Windows`, which is exactly the three Windows targets, and `posix` otherwise. |
| `TargetTriples.SysPlatform` | crates/uv-configuration/src/target_triple.rs:678-716 | `sys_platform` is determined by `platform_system`: `linux`, `win32`, `darwin` or `emscripten`. |
| `TargetTriples.ManylinuxCompatible` | crates/uv-configuration/src/target_triple.rs:719-758 | A target is manylinux-compatible exactly when its `platform_system` is `Linux`, and exactly when its OS tag is manylinux or musllinux. |
| `TargetTriples.Markers` | crates/uv-configuration/src/target_triple.rs:764-773 | `os_name`, `platform_machine`, `platform_system`, `sys_platform`, `platform_release` and `platform_version` come from the target. The implementation and Python-version markers are kept from the base environment. |
| `TargetTriples.MarkersOverride` | crates/uv-configuration/src/target_triple.rs:764-773 | Retargeting an environment that was built for another target gives the same markers as building from the base: nothing of the earlier target survives. |
| `TargetTriples.AliasesAgree` | crates/uv-configuration/src/target_triple.rs:237-758 | `windows`, `linux` and `macos` cannot be told apart from `x86_64-pc-windows-msvc`, `x86_64-unknown-linux-gnu` and `aarch64-apple-darwin` by any accessor. |
| `TargetTriples.ManylinuxTriplesUseTheirGlibc` | crates/uv-configuration/src/target_triple.rs:274-456 | Every `*-manylinux_2_NN` triple has platform `manylinux_2_NN` on its own architecture, with `manylinux2014` meaning glibc 2.17. |
| `TargetTriples.ManylinuxEquivalences` | crates/uv-configuration/src/target_triple.rs:239-456 | `manylinux2014` and `manylinux_2_17` give the same platform. The plain GNU/Linux triples give `manylinux_2_28`, on both architectures. |
| `TargetTriples.MuslTriples` | crates/uv-configuration/src/target_triple.rs:268-274 | Both musl triples use `musllinux_1_2`. |
| `TargetTriples.MacosTriples` | crates/uv-configuration/src/target_triple.rs:247-260 | The macOS triples use the deployment target when it parses, and 13.0 otherwise. Their architecture is aarch64, or x86_64 for `x86_64-apple-darwin`. |
| `TargetTriples.OnlyMacosReadsDeploymentTarget` | crates/uv-configuration/src/target_triple.rs:237-465 | No other target's platform depends on the deployment-target variable. |
| `TargetTriples.DeploymentTargetFromPieces` | crates/uv-configuration/src/target_triple.rs:778-786 | When the first two `.`-separated pieces parse, they are the major and minor version. |
| `TargetTriples.DeploymentTargetRoundTrip` | crates/uv-configuration/src/target_triple.rs:776-787 | `MAJOR.MINOR`, optionally followed by further `.`-separated text, parses back to the two numbers for every pair of `u16` values. |
| `TargetTriples.DeploymentTargetLeadingZeros` | crates/uv-configuration/src/target_triple.rs:776-787 | Leading zeros in either part, as in `10.09`, do not change the deployment target read. |
| `TargetTriples.DeploymentTargetMajorOnly` | crates/uv-configuration/src/target_triple.rs:783-784 | A bare major version gives minor version 0. |
| `TargetTriples.DeploymentTargetRejectsEmptyParts` | crates/uv-configuration/src/target_triple.rs:778-784 | The empty string, and `MAJOR.` with an empty minor part, give no deployment target. |
| `Text.ParseU16` | crates/uv-configuration/src/target_triple.rs:781 | Empty text and a leading `-` are rejected. Any accepted text is decimal digits, optionally after a `+`, whose value is the result. |
| `Text.ParseDigits` | crates/uv-configuration/src/target_triple.rs:781 | Conversely, every non-empty digit string, with or without a `+` and leading zeros included, parses to its value when that value is at most 65535, and is rejected otherwise. |
| `Text.ParseRender` | crates/uv-configuration/src/target_triple.rs:781-784 | The decimal rendering of any `u16` parses back to it. |
| `Text.ParsePlusRender` | crates/uv-configuration/src/target_triple.rs:781-784 | A leading `+` is accepted. |
| `Text.ParseOverflow` | crates/uv-configuration/src/target_triple.rs:781-784 | A value above 65535 does not parse, whether written with or without a `+` and with any number of leading zeros. |
| `Text.DigitsValueLeadingZeros` | crates/uv-configuration/src/target_triple.rs:781-784 | Leading zeros do not change the value of a digit string. |
| `Text.ParseLeadingZeros` | crates/uv-configuration/src/target_triple.rs:781-784 | A `u16` written with any number of leading zeros parses to its value. |
| `Text.Split` | crates/uv-configuration/src/target_triple.rs:778 | There is always at least one piece. No piece contains the separator. Joining the pieces with the separator gives back the input. |
| `Text.SplitNoSeparator` | crates/uv-configuration/src/target_triple.rs:778 | Text without a separator is one piece. |
| `Text.SplitAtFirstSeparator` | crates/uv-configuration/src/target_triple.rs:778 | The first piece ends at the first separator. The rest are the pieces of what follows it. |
| `Text.SplitJoin` | crates/uv-configuration/src/target_triple.rs:778 | Splitting inverts joining pieces that hold no separator. |
| `Text.Render` | crates/uv/src/commands/pip/uninstall.rs:230 | The rendering is non-empty digits with no leading zero, and its value is the number. |
| `DependencyMetadataIndex.FindFirst` | crates/uv-distribution-types/src/dependency_metadata.rs:33-39 | The result is the index of the first element satisfying the predicate, or none when no element does. |
| `DependencyMetadataIndex.FromEntries` | crates/uv-distribution-types/src/dependency_metadata.rs:15-21 | The index has a key for exactly the names that occur among the entries. Each key holds that package's entries in input order. Every entry appears among the values exactly as often as in the input. |
| `DependencyMetadataIndex.IndexedNames` | crates/uv-distribution-types/src/dependency_metadata.rs:15-21 | An index that tracks a prefix of the entries satisfies the index invariant and has the right keys and lists. |
| `DependencyMetadataIndex.FlattenPush` | crates/uv-distribution-types/src/dependency_metadata.rs:80-82 | Appending an entry to one package's list adds exactly that entry to the flattened values. |
| `DependencyMetadataIndex.FlattenMembers` | crates/uv-distribution-types/src/dependency_metadata.rs:80-82 | `values`: an entry is among the values exactly when it is in the list of some indexed package. |
| `DependencyMetadataIndex.DependencyMetadata.Get` | crates/uv-distribution-types/src/dependency_metadata.rs:24-77 | A result exists only for an indexed package and is never dynamic. With a version, the result carries that version. |
| `DependencyMetadataIndex.GetUnknownPackage` | crates/uv-distribution-types/src/dependency_metadata.rs:29 | A package that is not indexed has no metadata. |
| `DependencyMetadataIndex.GetExactVersion` | crates/uv-distribution-types/src/dependency_metadata.rs:33-38 | With a version, the first entry for exactly that version wins. |
| `DependencyMetadataIndex.GetGlobalFallback` | crates/uv-distribution-types/src/dependency_metadata.rs:39-41 | Without an exact entry, the first version-less entry is used, with the requested version. |
| `DependencyMetadataIndex.GetNoMatchingEntry` | crates/uv-distribution-types/src/dependency_metadata.rs:42-45 | Without an exact or a version-less entry there is no metadata. |
| `DependencyMetadataIndex.GetWithoutVersion` | crates/uv-distribution-types/src/dependency_metadata.rs:58-75 | Without a version, there is metadata exactly when the package has one entry and it carries a version. The result reports that version. |
| `DependencyMetadataIndex.GetWithoutVersionAmbiguous` | crates/uv-distribution-types/src/dependency_metadata.rs:58-61 | Without a version, two or more entries always give nothing. |
| `DependencyMetadataIndex.GetNamesPackage` | crates/uv-distribution-types/src/dependency_metadata.rs:47-54 | In a well-formed index, a result names the package that was asked for. |
| `CliOptions.Flag` | crates/uv-cli/src/options.rs:15-37 | `--x` alone gives `Some(true)` and `--no-x` alone gives `Some(false)`. Neither gives `None`. Both end the process with status 2, and the message names `--x` and `--no-x`. |
| `CliOptions.ResolverArgsFlags` | crates/uv-cli/src/options.rs:76-94 | The upgrade pair is resolved before the build-isolation pair. A doubled upgrade pair ends in `--no-upgrade`/`--no-no-upgrade`. Otherwise a doubled build-isolation pair ends in `--build-isolation`/`--no-build-isolation`. With neither doubled, both resolve as `flag` does. |
| `CliOptions.InstallerArgsFlags` | crates/uv-cli/src/options.rs:127-142 | The pairs are resolved in the order reinstall, build isolation, bytecode. The first doubled one names the exit (`--reinstall`, `--build-isolation` or `--compile-bytecode` with its `--no-` form). With none doubled, each resolves as `flag` does. |
| `CliOptions.ResolverInstallerArgsFlags` | crates/uv-cli/src/options.rs:179-204 | The pairs are resolved in the order upgrade, reinstall, build isolation, bytecode. The first doubled one names the exit (`--upgrade`, `--reinstall`, `--build-isolation` or `--compile-bytecode` with its `--no-` form). With none doubled, each resolves as `flag` does. |
| `CliOptions.BuildFlags` | crates/uv-cli/src/options.rs:363-365 | The build pair is resolved before the binary pair, with the "no" half as the first argument. A doubled build pair ends in `--build`/`--no-build`. Otherwise a doubled binary pair ends in `--binary`/`--no-binary`. |
| `CliOptions.RefreshOf` | crates/uv-cli/src/options.rs:39-49 | The refresh pair fails exactly when both halves are given, naming `--no-refresh`/`--no-no-refresh`. Otherwise it resolves as a tri-state and keeps the package list. |
| `CliOptions.KeepPresent` | crates/uv-cli/src/options.rs:252-264 | Every present value is kept. Nothing but present values is kept. The result is no longer than the input. |
| `CliOptions.KeepPresentAppend` | crates/uv-cli/src/options.rs:252-264 | Keeping present values distributes over concatenation, so their order is kept. |
| `CliOptions.KeepPresentFlat` | crates/uv-cli/src/options.rs:241-249 | Flattening the `--index` groups and then keeping present values equals keeping the present values of their concatenation. |
| `CliOptions.OnlyIfSet` | crates/uv-cli/src/options.rs:258 | `no_index` and `no_sources` are never `Some(false)`. They are set exactly when the switch is given. |
| `CliOptions.Prerelease` | crates/uv-cli/src/options.rs:82-86 | `--pre` forces `allow` whatever `--prerelease` says. Otherwise `--prerelease` passes through. |
| `CliOptions.NonEmpty` | crates/uv-cli/src/options.rs:445-455 | A package list is unset exactly when it is empty, and otherwise is the list itself. |
| `CliOptions.Flattened` | crates/uv-cli/src/options.rs:251 | An index URL is set exactly when one was given and is not explicitly empty. |
| `CliOptions.PresentValues` | crates/uv-cli/src/options.rs:252-264 | A list stays unset when not given. Otherwise it keeps exactly its present values. |
| `CliOptions.LowerIndexArgs` | crates/uv-cli/src/options.rs:229-268 | The default index becomes a one-element list. The `--index` groups are flattened and filtered. Index URLs and find-links keep their present values. `no_index` is `Some(true)` or unset. |
| `CliOptions.PipOptionsFromIndexArgs` | crates/uv-cli/src/options.rs:229-268 | The index settings are lowered from the arguments. Every other setting is unset: index strategy, keyring provider, upgrade, reinstall, resolution, pre-release, fork strategy, config settings, build isolation, exclude-newer, link mode, bytecode and sources, with their package lists. |
| `CliOptions.PipOptionsFromFetchArgs` | crates/uv-cli/src/options.rs:211-227 | The index settings are lowered from the index arguments. Index strategy, keyring provider and exclude-newer are passed through. Every other setting stays unset, as in the index-arguments conversion. |
| `CliOptions.PipOptionsFromResolverArgs` | crates/uv-cli/src/options.rs:51-103 | Fails exactly on a doubled upgrade or build-isolation pair. The first doubled pair in field order names the exit: `--no-upgrade`/`--no-no-upgrade` for upgrade, then `--build-isolation`/`--no-build-isolation`. Otherwise the flags resolve as tri-states, `--pre` forces `allow`, the package lists are always set, and reinstall, its list and bytecode stay unset. Index strategy, keyring provider, resolution, fork strategy, config settings, exclude-newer and link mode are passed through. |
| `CliOptions.PipOptionsFromInstallerArgs` | crates/uv-cli/src/options.rs:105-147 | Fails exactly on a doubled reinstall, build-isolation or bytecode pair. The first doubled pair in field order (reinstall, build isolation, bytecode) names the exit as `--x`/`--no-x`. Otherwise those resolve as tri-states, the reinstall list is always set, and upgrade, its list, resolution, pre-release, fork strategy and the build-isolation list stay unset. Index strategy, keyring provider, config settings, exclude-newer and link mode are passed through. |
| `CliOptions.PipOptionsFromResolverInstallerArgs` | crates/uv-cli/src/options.rs:149-209 | Fails exactly on a doubled upgrade, reinstall, build-isolation or bytecode pair. The first doubled pair in that order names the exit as `--x`/`--no-x`. Otherwise all four resolve as tri-states, `--pre` forces `allow`, and the package lists are always set. Index strategy, keyring provider, resolution, fork strategy, config settings, exclude-newer and link mode are passed through. |
| `CliOptions.OrEmpty` | crates/uv-cli/src/options.rs:358-361 | A missing exclude-newer package list counts as empty. |
| `CliOptions.ResolverOptionsOf` | crates/uv-cli/src/options.rs:271-369 | Fails exactly on a doubled upgrade, build-isolation, build or binary pair. The first doubled pair in that order names the exit: `--no-upgrade`/`--no-no-upgrade`, `--build-isolation`/`--no-build-isolation`, `--build`/`--no-build`, `--binary`/`--no-binary`. The "no" half is the first argument of each build pair. Every package list is set even when empty. Dependency metadata and extra build dependencies are always unset. Exclude-newer is built from the timestamp and the package list, a missing list counting as empty. The other settings are passed through. |
| `CliOptions.ResolverInstallerOptionsOf` | crates/uv-cli/src/options.rs:372-498 | Fails exactly on a doubled pair among upgrade, reinstall, build isolation, bytecode, build and binary. The first doubled pair in that order names the exit as `--x`/`--no-x`. Each flag then resolves as `flag` does, with the "no" half first for build isolation, build and binary. Each package list is unset when empty. Dependency metadata and extra build dependencies are always unset. The other settings are passed through. |
| `CliOptions.ResolverLoweringsAgree` | crates/uv-cli/src/options.rs:51-369 | The `pip` conversion and `resolver_options` agree on every setting they share: the indexes, the upgrade flag and list, prerelease, build isolation and its list, both config-settings fields, index strategy, keyring provider, resolution, fork strategy, link mode and sources. |
| `CliOptions.FlagConflictIsTheOnlyFailure` | crates/uv-cli/src/options.rs:149-498 | `resolver_installer_options` fails only on a doubled pair. It fails whenever the `pip` conversion of the same arguments does. |
| `CliOptions.ResolverInstallerLoweringsAgree` | crates/uv-cli/src/options.rs:149-498 | The two resolver-installer lowerings agree on every flag and on every pass-through setting (index strategy, keyring provider, resolution, fork strategy, both config-settings fields, both exclude-newer fields, link mode). Their package lists agree exactly when the list given is not empty. |
| `Ordering.LexStrictTotalOrder` | crates/uv/src/commands/pip/uninstall.rs:131-143 | The lexicographic extension of a strict total order is a strict total order. |
| `Ordering.StrAndPathOrders` | crates/uv/src/commands/pip/uninstall.rs:187 | String order and path order are strict total orders. |
| `Ordering.StrictlySortedUnique` | crates/uv/src/commands/pip/uninstall.rs:131-132 | Two strictly sorted sequences with the same elements are equal, so sorting and deduplicating has one possible result. |
| `Ordering.SortDedupBy` | crates/uv/src/commands/pip/uninstall.rs:187-188 | The result is strictly sorted by key, so no two entries share a key. Every entry comes from the input. Every key of the input is kept. |
| `PipUninstall.Partition` | crates/uv/src/commands/pip/uninstall.rs:116-122 | The two sides together are exactly as long as the input; with the members lemma below, each requirement goes to one side. |
| `PipUninstall.PartitionMembers` | crates/uv/src/commands/pip/uninstall.rs:116-122 | Every requirement lands on the side of its variant, and nothing else lands there. |
| `PipUninstall.PartitionAppend` | crates/uv/src/commands/pip/uninstall.rs:116-122 | Partitioning keeps the order of each side. |
| `PipUninstall.SortedNames` | crates/uv/src/commands/pip/uninstall.rs:124-134 | The names are strictly sorted and are exactly the names of the named requirements. Version specifiers are ignored. |
| `PipUninstall.SortedUrls` | crates/uv/src/commands/pip/uninstall.rs:136-145 | The URLs are strictly sorted and are exactly the URLs of the unnamed requirements. |
| `PipUninstall.GatheredMembers` | crates/uv/src/commands/pip/uninstall.rs:151-185 | A distribution is collected exactly when some looked-up key finds it, so a key with nothing installed adds nothing. |
| `PipUninstall.SkipsNameMissingKeys` | crates/uv/src/commands/pip/uninstall.rs:151-185 | A "not installed" warning is issued exactly for the keys under which nothing is installed. |
| `PipUninstall.Collect` | crates/uv/src/commands/pip/uninstall.rs:151-185 | Appends what each key finds, in key order. Warns about each key with nothing installed, and only when not in dry run. |
| `PipUninstall.SelectDistributions` | crates/uv/src/commands/pip/uninstall.rs:116-190 | The plan is sorted by install path with no path twice. Each planned distribution is installed under a requested name or URL, and every such distribution's path is covered. The warnings name exactly the requested names and URLs with nothing installed, and are empty in dry run. Outside dry run they come in a fixed order: the names in sorted order, then the URLs in sorted order. |
| `PipUninstall.Uninstall` | crates/uv/src/commands/pip/uninstall.rs:116-256 | An empty plan removes nothing and succeeds, warning "No packages to uninstall" unless in dry run; that warning appears only then. A dry run removes nothing and warns about nothing. Otherwise the "not installed" warnings name exactly the requested names and URLs with nothing installed: first the names, then the URLs, each in sorted order, with "No packages to uninstall" last. Otherwise each planned distribution is removed once, in plan order, stopping at the first failure, whose error is the result. |
| `PipUninstall.PackageCount` | crates/uv/src/commands/pip/uninstall.rs:222-230 | The count is followed by ` package` when it is 1 and by ` packages` otherwise. |
| `PipUninstall.FileNoun` | crates/uv/src/commands/pip/uninstall.rs:214 | `file` exactly for a count of 1, otherwise `files`. |
| `PipUninstall.DirectoryNoun` | crates/uv/src/commands/pip/uninstall.rs:216 | `directory` exactly for a count of 1, otherwise `directories`. |
| `PipUninstall.ConclusionLine` | crates/uv/src/commands/pip/uninstall.rs:224-245 | An empty plan closes with "Would make no changes" in dry run, and with no line of its own otherwise, its warning having said it. A dry run closes with "Would uninstall N package(s)". A real run closes with "Uninstalled N package(s)". |

## Left out

- Reading `MACOSX_DEPLOYMENT_TARGET`: the variable's value is a parameter (`None` when unset). `debug!`/`warn!` logging is not modelled anywhere.
- The serde and clap name and alias parsing of target triples, and the `MarkerEnvironment` builder: markers are a plain record of eleven strings.
- `DependencyMetadataIndex.DependencyMetadata.Values`: the hash map's iteration order is unspecified. The model lists packages in first-insertion order. What is proved holds for any order: membership, and, after `FromEntries`, that the values are the indexed entries as a multiset.
- The hash map itself: the index is a map plus the list of its keys.
- The contents of `Version`, `Requirement`, `VersionSpecifiers` and `ExtraName`: these are opaque types with equality.
- The foreign helpers of `options.rs` are recorded as their operands and not evaluated. These are `Combine` for `index`, the `ConfigSettings`/`PackageConfigSettings` collection, `ExcludeNewer::from_args`, `ExcludeNewerPackage::from_iter` and `Refresh::from_args`.
- `process::exit(2)` in `flag` becomes an `Err` carrying the status and the two flag names. The coloured message text is not modelled.
- The settings records hold only the fields these conversions set. The index fields are grouped in one record, `IndexOptions`.
- `Path` ordering: an install path is a sequence of component strings. Rust's special components (root, prefix, `.` and `..`) are not distinguished from normal ones.
- `Ordering.SortDedupBy` does not model the in-place unstable sort. The model inserts into a sorted sequence and keeps the first distribution met for each install path; the property proved is what any order of the source gives.
- `pip_uninstall` before line 116 is not modelled: environment discovery, `--target`/`--prefix`, the externally-managed check, the environment lock and requirement-source reading. Site-packages is a pair of maps from name and URL to installed distributions.
- File removal (`uv_installer::uninstall`) is a function parameter. Its `debug!` line is modelled only through `FileNoun` and `DirectoryNoun`.
- Elapsed time, terminal colours, the final per-distribution listing and failures writing to standard error.
- `crates/uv/src/commands/pip/install.rs` and `crates/uv/src/commands/python/mod.rs` are not part of this model: the first only orchestrates foreign objects, and the second holds no logic.
