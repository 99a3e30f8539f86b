/**
 * Pre-defined dependency metadata: static records (a subset of the Core Metadata 2.3
 * fields) that stand in for a package's real metadata, indexed by package name and
 * looked up by name and, optionally, version.
 */
module DependencyMetadataIndex {
  import opened Wrappers

  /** A normalised package name. */
  type PackageName = string

  /** A PEP 440 version; only compared for equality here. */
  type Version(==)

  /** A PEP 508 requirement (`Requires-Dist`). */
  type Requirement(==)

  /** A PEP 440 version-specifier set (`Requires-Python`). */
  type VersionSpecifiers(==)

  /** An extra name (`Provides-Extra`). */
  type ExtraName(==)

  /** One user-supplied metadata record; no `version` means it applies to every version. */
  datatype StaticMetadata = StaticMetadata(
    name: PackageName,
    version: Option<Version>,
    requiresDist: seq<Requirement>,
    requiresPython: Option<VersionSpecifiers>,
    providesExtras: seq<ExtraName>)

  /** The metadata the resolver consumes for one package version. */
  datatype ResolutionMetadata = ResolutionMetadata(
    name: PackageName,
    version: Version,
    requiresDist: seq<Requirement>,
    requiresPython: Option<VersionSpecifiers>,
    providesExtras: seq<ExtraName>,
    dynamic: bool)

  /** The index of the first element of `s` that satisfies `p` (`Iterator::position`). */
  function FindFirst<T>(s: seq<T>, p: T -> bool): (r: Option<nat>)
    ensures r.Some? ==> r.value < |s| && p(s[r.value])
    ensures r.Some? ==> forall j :: 0 <= j < r.value ==> !p(s[j])
    ensures r.None? ==> forall j :: 0 <= j < |s| ==> !p(s[j])
  {
    if s == [] then None
    else if p(s[0]) then Some(0)
    else
      match FindFirst(s[1..], p)
      case None => None
      case Some(i) => Some(i + 1)
  }

  /** The resolution metadata of `entry`, reported at version `version`. */
  function Resolved(entry: StaticMetadata, version: Version): ResolutionMetadata
  {
    ResolutionMetadata(entry.name, version, entry.requiresDist, entry.requiresPython,
                       entry.providesExtras, false)
  }

  /** The entries of `entries` with the given name, in their input order. */
  function EntriesNamed(entries: seq<StaticMetadata>, name: PackageName): seq<StaticMetadata>
  {
    if entries == [] then []
    else
      var last := entries[|entries| - 1];
      EntriesNamed(entries[..|entries| - 1], name) + if last.name == name then [last] else []
  }

  predicate Distinct<T(==)>(s: seq<T>)
  {
    forall i, j :: 0 <= i < j < |s| ==> s[i] != s[j]
  }

  /** The concatenation of the lists of `names`, in that order. */
  function Flatten(names: seq<PackageName>, lists: map<PackageName, seq<StaticMetadata>>): seq<StaticMetadata>
    requires forall n :: n in names ==> n in lists
  {
    if names == [] then [] else lists[names[0]] + Flatten(names[1..], lists)
  }

  /**
   * An entry is flattened exactly when it is in the list of one of `names`: the
   * values of an index are the entries of its packages' lists.
   */
  lemma {:induction false} FlattenMembers(names: seq<PackageName>, lists: map<PackageName, seq<StaticMetadata>>)
    requires forall n :: n in names ==> n in lists
    ensures forall e :: e in Flatten(names, lists) <==> exists n :: n in names && e in lists[n]
  {
    if names != [] {
      FlattenMembers(names[1..], lists);
      forall e | exists n :: n in names && e in lists[n] ensures e in Flatten(names, lists) {
        var n :| n in names && e in lists[n];
        if n != names[0] {
          assert n in names[1..];
        }
      }
    }
  }

  /**
   * The index: a map from package name to that package's entries. `names` records the
   * order in which names were first seen, which fixes an iteration order for the map.
   */
  datatype DependencyMetadata = DependencyMetadata(
    names: seq<PackageName>,
    lists: map<PackageName, seq<StaticMetadata>>)
  {
    ghost predicate Valid()
    {
      && (forall n :: n in lists <==> n in names)
      && Distinct(names)
      && (forall n :: n in lists ==> lists[n] != [])
      && (forall n, i :: n in lists && 0 <= i < |lists[n]| ==> lists[n][i].name == n)
    }

    /** Every entry of the index, package by package. */
    function Values(): seq<StaticMetadata>
      requires forall n :: n in names ==> n in lists
    {
      Flatten(names, lists)
    }

    /**
     * The metadata for `package` at `version`. With a version, the first entry for
     * exactly that version wins, then the first version-less entry. Without one (a
     * direct URL dependency), the package must have a single entry, and it must carry
     * its version.
     */
    function Get(package: PackageName, version: Option<Version>): (r: Option<ResolutionMetadata>)
      ensures r.Some? ==> package in lists && !r.value.dynamic
      ensures r.Some? && version.Some? ==> r.value.version == version.value
    {
      if package !in lists then None
      else
        var versions := lists[package];
        match version
        case Some(v) =>
          (match FindFirst(versions, (entry: StaticMetadata) => entry.version == Some(v))
           case Some(i) => Some(Resolved(versions[i], v))
           case None =>
             match FindFirst(versions, (entry: StaticMetadata) => entry.version.None?)
             case Some(i) => Some(Resolved(versions[i], v))
             case None => None)
        case None =>
          if |versions| != 1 then None
          else
            match versions[0].version
            case None => None
            case Some(v) => Some(Resolved(versions[0], v))
    }
  }

  /** Adding a new name at the end of the order appends its list. */
  lemma {:induction false} FlattenAppendName(names: seq<PackageName>, lists: map<PackageName, seq<StaticMetadata>>, n: PackageName)
    requires forall m :: m in names ==> m in lists
    requires n in lists
    ensures Flatten(names + [n], lists) == Flatten(names, lists) + lists[n]
  {
    if names != [] {
      assert (names + [n])[1..] == names[1..] + [n];
      FlattenAppendName(names[1..], lists, n);
    }
  }

  /** Changing the list of a name that is not in the order changes nothing. */
  lemma {:induction false} FlattenIgnoresOtherKeys(names: seq<PackageName>, lists: map<PackageName, seq<StaticMetadata>>, n: PackageName, l: seq<StaticMetadata>)
    requires forall m :: m in names ==> m in lists
    requires n !in names
    ensures Flatten(names, lists[n := l]) == Flatten(names, lists)
  {
    if names != [] {
      FlattenIgnoresOtherKeys(names[1..], lists, n, l);
    }
  }

  /** Pushing `e` onto the list of a name that occurs once adds `e` exactly once. */
  lemma {:induction false} FlattenPush(names: seq<PackageName>, lists: map<PackageName, seq<StaticMetadata>>, n: PackageName, e: StaticMetadata)
    requires forall m :: m in names ==> m in lists
    requires Distinct(names) && n in names
    ensures multiset(Flatten(names, lists[n := lists[n] + [e]])) == multiset(Flatten(names, lists)) + multiset{e}
  {
    var lists' := lists[n := lists[n] + [e]];
    if names[0] == n {
      assert n !in names[1..] by {
        forall k | 0 <= k < |names[1..]| ensures names[1..][k] != n {
          assert names[1..][k] == names[k + 1];
        }
      }
      FlattenIgnoresOtherKeys(names[1..], lists, n, lists[n] + [e]);
    } else {
      assert Distinct(names[1..]) by {
        forall i, j | 0 <= i < j < |names[1..]| ensures names[1..][i] != names[1..][j] {
          assert names[1..][i] == names[i + 1] && names[1..][j] == names[j + 1];
        }
      }
      FlattenPush(names[1..], lists, n, e);
    }
  }

  /** The list of `n`, empty when `n` has none. */
  function ListOf(lists: map<PackageName, seq<StaticMetadata>>, n: PackageName): seq<StaticMetadata>
  {
    if n in lists then lists[n] else []
  }

  /** Each name's list is exactly that name's entries among `seen`. */
  ghost predicate ListsMatch(lists: map<PackageName, seq<StaticMetadata>>, seen: seq<StaticMetadata>)
  {
    forall n :: ListOf(lists, n) == EntriesNamed(seen, n)
  }

  /** `names` and `lists` index exactly the entries `seen`. */
  ghost predicate Indexes(names: seq<PackageName>, lists: map<PackageName, seq<StaticMetadata>>, seen: seq<StaticMetadata>)
  {
    && DependencyMetadata(names, lists).Valid()
    && ListsMatch(lists, seen)
    && multiset(Flatten(names, lists)) == multiset(seen)
  }

  /** Seeing one more entry extends exactly the list of its own name. */
  lemma EntriesNamedSnoc(seen: seq<StaticMetadata>, entry: StaticMetadata, n: PackageName)
    ensures EntriesNamed(seen + [entry], n) == EntriesNamed(seen, n) + if entry.name == n then [entry] else []
  {
    assert (seen + [entry])[..|seen|] == seen;
  }

  /** Pushing an entry onto its own name's list keeps the lists exact. */
  lemma PushKeepsListsMatch(lists: map<PackageName, seq<StaticMetadata>>, seen: seq<StaticMetadata>, entry: StaticMetadata)
    requires ListsMatch(lists, seen)
    ensures ListsMatch(lists[entry.name := ListOf(lists, entry.name) + [entry]], seen + [entry])
  {
    var lists' := lists[entry.name := ListOf(lists, entry.name) + [entry]];
    forall n ensures ListOf(lists', n) == EntriesNamed(seen + [entry], n) {
      EntriesNamedSnoc(seen, entry, n);
      assert ListOf(lists, n) == EntriesNamed(seen, n);
    }
  }

  /** One step of `from_entries` for a name already indexed: its list grows by the entry. */
  lemma PushExistingKeepsIndex(names: seq<PackageName>, lists: map<PackageName, seq<StaticMetadata>>, seen: seq<StaticMetadata>, entry: StaticMetadata)
    requires Indexes(names, lists, seen)
    requires entry.name in lists
    ensures Indexes(names, lists[entry.name := lists[entry.name] + [entry]], seen + [entry])
  {
    var lists' := lists[entry.name := lists[entry.name] + [entry]];
    PushKeepsListsMatch(lists, seen, entry);
    assert ListOf(lists, entry.name) == lists[entry.name];
    assert DependencyMetadata(names, lists').Valid() by {
      forall n, i | n in lists' && 0 <= i < |lists'[n]| ensures lists'[n][i].name == n {
        if n == entry.name && i == |lists[n]| {
          assert lists'[n][i] == entry;
        } else {
          assert lists'[n][i] == lists[n][i];
        }
      }
    }
    FlattenPush(names, lists, entry.name, entry);
  }

  /** A new name with a one-entry list keeps the index well formed. */
  lemma AddNameKeepsValid(names: seq<PackageName>, lists: map<PackageName, seq<StaticMetadata>>, entry: StaticMetadata)
    requires DependencyMetadata(names, lists).Valid()
    requires entry.name !in lists
    ensures DependencyMetadata(names + [entry.name], lists[entry.name := [entry]]).Valid()
  {
    var names', lists' := names + [entry.name], lists[entry.name := [entry]];
    assert forall n :: n in lists' <==> n in names';
    assert Distinct(names') by {
      forall i, j | 0 <= i < j < |names'| ensures names'[i] != names'[j] {
        if j == |names| { assert names'[i] == names[i] && names[i] in lists; }
      }
    }
  }

  /** One step of `from_entries` for a new name: it joins the order with a one-entry list. */
  lemma PushNewKeepsIndex(names: seq<PackageName>, lists: map<PackageName, seq<StaticMetadata>>, seen: seq<StaticMetadata>, entry: StaticMetadata)
    requires Indexes(names, lists, seen)
    requires entry.name !in lists
    ensures Indexes(names + [entry.name], lists[entry.name := [entry]], seen + [entry])
  {
    var lists' := lists[entry.name := [entry]];
    PushKeepsListsMatch(lists, seen, entry);
    assert ListOf(lists, entry.name) + [entry] == [entry];
    AddNameKeepsValid(names, lists, entry);
    FlattenIgnoresOtherKeys(names, lists, entry.name, [entry]);
    FlattenAppendName(names, lists', entry.name);
  }

  /** The empty index indexes no entries. */
  lemma EmptyIndexes()
    ensures Indexes([], map[], [])
  {
    forall n ensures ListOf(map[], n) == EntriesNamed([], n) {
    }
  }

  /** What an exact index says about each name. */
  lemma IndexedNames(names: seq<PackageName>, lists: map<PackageName, seq<StaticMetadata>>, seen: seq<StaticMetadata>)
    requires Indexes(names, lists, seen)
    ensures DependencyMetadata(names, lists).Valid()
    ensures multiset(DependencyMetadata(names, lists).Values()) == multiset(seen)
    ensures forall n :: n in lists <==> EntriesNamed(seen, n) != []
    ensures forall n :: n in lists ==> lists[n] == EntriesNamed(seen, n)
  {
    forall n ensures n in lists <==> EntriesNamed(seen, n) != [] {
      assert ListOf(lists, n) == EntriesNamed(seen, n);
    }
    forall n | n in lists ensures lists[n] == EntriesNamed(seen, n) {
      assert ListOf(lists, n) == EntriesNamed(seen, n);
    }
  }

  /**
   * Groups `entries` by package name (`from_entries`): each package's list holds
   * exactly its entries in input order, and the index holds every entry exactly once.
   */
  method FromEntries(entries: seq<StaticMetadata>) returns (index: DependencyMetadata)
    ensures index.Valid()
    ensures forall n :: n in index.lists <==> EntriesNamed(entries, n) != []
    ensures forall n :: n in index.lists ==> index.lists[n] == EntriesNamed(entries, n)
    ensures multiset(index.Values()) == multiset(entries)
  {
    var names: seq<PackageName> := [];
    var lists: map<PackageName, seq<StaticMetadata>> := map[];
    ghost var seen: seq<StaticMetadata> := [];
    EmptyIndexes();
    var i := 0;
    while i < |entries|
      invariant i <= |entries| && seen == entries[..i]
      invariant Indexes(names, lists, seen)
    {
      var entry := entries[i];
      if entry.name in lists {
        PushExistingKeepsIndex(names, lists, seen, entry);
        lists := lists[entry.name := lists[entry.name] + [entry]];
      } else {
        PushNewKeepsIndex(names, lists, seen, entry);
        names := names + [entry.name];
        lists := lists[entry.name := [entry]];
      }
      seen := seen + [entry];
      i := i + 1;
      assert seen == entries[..i];
    }
    assert seen == entries;
    IndexedNames(names, lists, seen);
    index := DependencyMetadata(names, lists);
  }

  /** A package with no entries has no metadata. */
  lemma GetUnknownPackage(index: DependencyMetadata, package: PackageName, version: Option<Version>)
    requires package !in index.lists
    ensures index.Get(package, version) == None
  {
  }

  /** With a version, the first entry for exactly that version is chosen. */
  lemma GetExactVersion(index: DependencyMetadata, package: PackageName, v: Version, i: nat)
    requires package in index.lists && i < |index.lists[package]|
    requires index.lists[package][i].version == Some(v)
    requires forall j :: 0 <= j < i ==> index.lists[package][j].version != Some(v)
    ensures index.Get(package, Some(v)) == Some(Resolved(index.lists[package][i], v))
  {
  }

  /** Failing an exact match, the first version-less (global) entry is chosen. */
  lemma GetGlobalFallback(index: DependencyMetadata, package: PackageName, v: Version, i: nat)
    requires package in index.lists && i < |index.lists[package]|
    requires forall j :: 0 <= j < |index.lists[package]| ==> index.lists[package][j].version != Some(v)
    requires index.lists[package][i].version.None?
    requires forall j :: 0 <= j < i ==> index.lists[package][j].version.Some?
    ensures index.Get(package, Some(v)) == Some(Resolved(index.lists[package][i], v))
  {
  }

  /** With neither an exact nor a global entry, there is no metadata. */
  lemma GetNoMatchingEntry(index: DependencyMetadata, package: PackageName, v: Version)
    requires package in index.lists
    requires forall j :: 0 <= j < |index.lists[package]| ==> index.lists[package][j].version.Some?
    requires forall j :: 0 <= j < |index.lists[package]| ==> index.lists[package][j].version != Some(v)
    ensures index.Get(package, Some(v)) == None
  {
  }

  /**
   * Without a version, metadata exists exactly when the package has a single entry
   * and that entry carries a version, which the result reports.
   */
  lemma GetWithoutVersion(index: DependencyMetadata, package: PackageName)
    ensures index.Get(package, None).Some? <==>
      package in index.lists && |index.lists[package]| == 1 && index.lists[package][0].version.Some?
    ensures index.Get(package, None).Some? ==>
      index.Get(package, None) == Some(Resolved(index.lists[package][0], index.lists[package][0].version.value))
  {
  }

  /** Without a version, two or more entries always give nothing, even if all are versioned. */
  lemma GetWithoutVersionAmbiguous(index: DependencyMetadata, package: PackageName)
    requires package in index.lists && |index.lists[package]| >= 2
    ensures index.Get(package, None) == None
  {
  }

  /** In a valid index, a result always names the package that was asked for. */
  lemma GetNamesPackage(index: DependencyMetadata, package: PackageName, version: Option<Version>)
    requires index.Valid()
    ensures index.Get(package, version).Some? ==> index.Get(package, version).value.name == package
  {
  }
}
