/**
 * Target selection and execution plan of `pip uninstall`: requirements are split into
 * named ones and URL ones, each side is sorted and deduplicated, every name and URL is
 * looked up among the installed distributions, and the distributions found are sorted
 * and deduplicated by install path before being removed one by one.
 */
module PipUninstall {
  import opened Wrappers
  import opened Text
  import opened Ordering

  type PackageName = string
  type Url = string

  /** The version or URL a named requirement asks for; uninstalling ignores it. */
  type VersionOrUrl(==, !new)

  /** A version as reported by an installed distribution. */
  type InstalledVersion(==, !new)

  datatype NamedRequirement = NamedRequirement(name: PackageName, specifier: Option<VersionOrUrl>)
  datatype UnnamedRequirement = UnnamedRequirement(url: Url)

  /** A requirement read from the command line or a requirements file. */
  datatype UnresolvedRequirement = Named(named: NamedRequirement) | Unnamed(unnamed: UnnamedRequirement)

  /** Splits the requirements into the named ones and the URL ones (`partition_map`). */
  function Partition(requirements: seq<UnresolvedRequirement>): (r: (seq<NamedRequirement>, seq<UnnamedRequirement>))
    ensures |r.0| + |r.1| == |requirements|
  {
    if requirements == [] then ([], [])
    else
      var rest := Partition(requirements[1..]);
      match requirements[0]
      case Named(n) => ([n] + rest.0, rest.1)
      case Unnamed(u) => (rest.0, [u] + rest.1)
  }

  /** Partitioning keeps the order of each side: it distributes over concatenation. */
  lemma {:induction false} PartitionAppend(a: seq<UnresolvedRequirement>, b: seq<UnresolvedRequirement>)
    ensures Partition(a + b).0 == Partition(a).0 + Partition(b).0
    ensures Partition(a + b).1 == Partition(a).1 + Partition(b).1
  {
    if a == [] {
      assert a + b == b;
    } else {
      assert (a + b)[0] == a[0];
      assert (a + b)[1..] == a[1..] + b;
      PartitionAppend(a[1..], b);
    }
  }

  /** Every requirement lands on the side of its variant, and nothing else does. */
  lemma {:induction false} PartitionMembers(requirements: seq<UnresolvedRequirement>)
    ensures forall n :: n in Partition(requirements).0 <==> Named(n) in requirements
    ensures forall u :: u in Partition(requirements).1 <==> Unnamed(u) in requirements
  {
    if requirements != [] {
      PartitionMembers(requirements[1..]);
      assert requirements == [requirements[0]] + requirements[1..];
    }
  }

  function Itself<T>(x: T): T { x }
  function RequirementName(r: NamedRequirement): PackageName { r.name }
  function RequirementUrl(r: UnnamedRequirement): Url { r.url }

  lemma KeySetItself<T>(s: seq<T>)
    ensures forall x :: x in KeySet(s, Itself) <==> x in s
  {
    forall x | x in s ensures x in KeySet(s, Itself) {
      assert Itself(x) == x;
    }
  }

  /** The keys of a sequence are those of the sequence of its mapped entries. */
  lemma KeySetOfMapped<T, K>(s: seq<T>, keys: seq<K>, key: T -> K)
    requires |keys| == |s|
    requires forall i :: 0 <= i < |s| ==> keys[i] == key(s[i])
    ensures KeySet(keys, Itself) == KeySet(s, key)
  {
    forall k | k in KeySet(keys, Itself) ensures k in KeySet(s, key) {
      var i :| 0 <= i < |keys| && keys[i] == k;
      assert s[i] in s;
    }
    forall k | k in KeySet(s, key) ensures k in KeySet(keys, Itself) {
      var x :| x in s && key(x) == k;
      var i :| 0 <= i < |s| && s[i] == x;
      assert keys[i] in keys && Itself(keys[i]) == k;
    }
  }

  /**
   * The package names of the named requirements, sorted and without repeats; the
   * version or URL each one asks for is ignored.
   */
  method SortedNames(named: seq<NamedRequirement>) returns (names: seq<PackageName>)
    ensures StrictlySortedBy(names, Itself, StrLess)
    ensures forall n :: n in names <==> n in KeySet(named, RequirementName)
  {
    var packages := seq(|named|, i requires 0 <= i < |named| => named[i].name);
    StrAndPathOrders();
    names := SortDedupBy(packages, Itself, StrLess);
    KeySetItself(names);
    KeySetOfMapped(named, packages, RequirementName);
  }

  /** The URLs of the unnamed requirements, sorted and without repeats. */
  method SortedUrls(unnamed: seq<UnnamedRequirement>) returns (urls: seq<Url>)
    ensures StrictlySortedBy(urls, Itself, StrLess)
    ensures forall u :: u in urls <==> u in KeySet(unnamed, RequirementUrl)
  {
    var all := seq(|unnamed|, i requires 0 <= i < |unnamed| => unnamed[i].url);
    StrAndPathOrders();
    urls := SortDedupBy(all, Itself, StrLess);
    KeySetItself(urls);
    KeySetOfMapped(unnamed, all, RequirementUrl);
  }

  /** An installed distribution, with the directory or file it is installed at. */
  datatype InstalledDist = InstalledDist(name: PackageName, version: InstalledVersion, installPath: Path)

  function InstallPath(d: InstalledDist): Path { d.installPath }

  /** The installed distributions of an environment, looked up by name or by URL. */
  datatype SitePackages = SitePackages(
    byName: map<PackageName, seq<InstalledDist>>,
    byUrl: map<Url, seq<InstalledDist>>)

  /** The distributions installed under `key`; none when the key is unknown. */
  function Lookup(index: map<string, seq<InstalledDist>>, key: string): seq<InstalledDist>
  {
    if key in index then index[key] else []
  }

  /** The distributions found for `keys`, key after key. */
  function Gathered(index: map<string, seq<InstalledDist>>, keys: seq<string>): seq<InstalledDist>
  {
    if keys == [] then []
    else Gathered(index, keys[..|keys| - 1]) + Lookup(index, keys[|keys| - 1])
  }

  /** A warning printed to standard error. */
  datatype Warning = SkippingNotInstalled(what: string) | NoPackagesToUninstall

  /** A warning for each key under which nothing is installed, in order. */
  function Skips(index: map<string, seq<InstalledDist>>, keys: seq<string>): seq<Warning>
  {
    if keys == [] then []
    else
      var k := keys[|keys| - 1];
      Skips(index, keys[..|keys| - 1]) + (if Lookup(index, k) == [] then [SkippingNotInstalled(k)] else [])
  }

  /** A distribution is gathered exactly when some key finds it. */
  lemma {:induction false} GatheredMembers(index: map<string, seq<InstalledDist>>, keys: seq<string>, d: InstalledDist)
    ensures d in Gathered(index, keys) <==> exists k :: k in keys && d in Lookup(index, k)
    decreases |keys|
  {
    if keys != [] {
      var front := keys[..|keys| - 1];
      GatheredMembers(index, front, d);
      assert keys == front + [keys[|keys| - 1]];
      if d in Gathered(index, keys) && d !in Lookup(index, keys[|keys| - 1]) {
        var k :| k in front && d in Lookup(index, k);
        assert k in keys;
      }
      if exists k :: k in keys && d in Lookup(index, k) {
        var k :| k in keys && d in Lookup(index, k);
        if k != keys[|keys| - 1] {
          assert k in front;
        }
      }
    }
  }

  /** A warning names exactly the keys under which nothing is installed. */
  lemma {:induction false} SkipsNameMissingKeys(index: map<string, seq<InstalledDist>>, keys: seq<string>, w: Warning)
    ensures w in Skips(index, keys) <==> w.SkippingNotInstalled? && w.what in keys && Lookup(index, w.what) == []
    decreases |keys|
  {
    if keys != [] {
      var front := keys[..|keys| - 1];
      SkipsNameMissingKeys(index, front, w);
      assert keys == front + [keys[|keys| - 1]];
    }
  }

  /**
   * Looks up each key in turn, collecting what is installed under it and, unless
   * in dry run, warning about each key under which nothing is installed.
   */
  method Collect(index: map<string, seq<InstalledDist>>, keys: seq<string>, dryRun: bool, found: seq<InstalledDist>)
    returns (found': seq<InstalledDist>, warnings: seq<Warning>)
    ensures found' == found + Gathered(index, keys)
    ensures warnings == if dryRun then [] else Skips(index, keys)
  {
    found' := found;
    warnings := [];
    for i := 0 to |keys|
      invariant found' == found + Gathered(index, keys[..i])
      invariant warnings == if dryRun then [] else Skips(index, keys[..i])
    {
      var key := keys[i];
      assert keys[..i + 1][..i] == keys[..i];
      var installed := Lookup(index, key);
      if installed == [] {
        if !dryRun {
          warnings := warnings + [SkippingNotInstalled(key)];
        }
      } else {
        found' := found' + installed;
      }
    }
    assert keys[..|keys|] == keys;
  }

  /** The names of the named requirements. */
  ghost function RequestedNames(requirements: seq<UnresolvedRequirement>): set<PackageName>
  {
    KeySet(Partition(requirements).0, RequirementName)
  }

  /** The URLs of the unnamed requirements. */
  ghost function RequestedUrls(requirements: seq<UnresolvedRequirement>): set<Url>
  {
    KeySet(Partition(requirements).1, RequirementUrl)
  }

  /** Whether `d` is installed under a requested name or a requested URL. */
  ghost predicate Requested(site: SitePackages, requirements: seq<UnresolvedRequirement>, d: InstalledDist)
  {
    || (exists n :: n in RequestedNames(requirements) && d in Lookup(site.byName, n))
    || (exists u :: u in RequestedUrls(requirements) && d in Lookup(site.byUrl, u))
  }

  /**
   * The distributions to uninstall: sorted by install path with one per path, each
   * installed under a requested name or URL, and every path of such a distribution
   * covered. Unless in dry run, the warnings name each requested name under which
   * nothing is installed, in sorted order, then each such requested URL, in sorted
   * order. `names` and `urls` are the requested names and URLs, sorted and without
   * repeats; a strictly sorted sequence is fixed by its members, so they and the
   * warnings are fully determined by the requirements.
   */
  method SelectDistributions(site: SitePackages, requirements: seq<UnresolvedRequirement>, dryRun: bool)
    returns (plan: seq<InstalledDist>, warnings: seq<Warning>, ghost names: seq<PackageName>, ghost urls: seq<Url>)
    ensures StrictlySortedBy(names, Itself, StrLess) && (forall n :: n in names <==> n in RequestedNames(requirements))
    ensures StrictlySortedBy(urls, Itself, StrLess) && (forall u :: u in urls <==> u in RequestedUrls(requirements))
    ensures warnings == if dryRun then [] else Skips(site.byName, names) + Skips(site.byUrl, urls)
    ensures StrictlySortedBy(plan, InstallPath, PathLess)
    ensures forall d :: d in plan ==> Requested(site, requirements, d)
    ensures forall d :: Requested(site, requirements, d) ==> d.installPath in KeySet(plan, InstallPath)
    ensures dryRun ==> warnings == []
    ensures !dryRun ==> forall k ::
      SkippingNotInstalled(k) in warnings <==>
        (k in RequestedNames(requirements) && Lookup(site.byName, k) == [])
        || (k in RequestedUrls(requirements) && Lookup(site.byUrl, k) == [])
    ensures NoPackagesToUninstall !in warnings
  {
    var (named, unnamed) := Partition(requirements);
    var sortedNames := SortedNames(named);
    var sortedUrls := SortedUrls(unnamed);
    names, urls := sortedNames, sortedUrls;

    var found, nameWarnings := Collect(site.byName, sortedNames, dryRun, []);
    var urlWarnings;
    found, urlWarnings := Collect(site.byUrl, sortedUrls, dryRun, found);
    warnings := nameWarnings + urlWarnings;

    StrAndPathOrders();
    plan := SortDedupBy(found, InstallPath, PathLess);

    forall d | d in found ensures Requested(site, requirements, d) {
      if d in Gathered(site.byName, names) {
        GatheredMembers(site.byName, names, d);
      } else {
        GatheredMembers(site.byUrl, urls, d);
      }
    }
    forall d | Requested(site, requirements, d) ensures d.installPath in KeySet(plan, InstallPath) {
      if exists n :: n in RequestedNames(requirements) && d in Lookup(site.byName, n) {
        GatheredMembers(site.byName, names, d);
      } else {
        GatheredMembers(site.byUrl, urls, d);
      }
      assert d in found;
      assert InstallPath(d) in KeySet(found, InstallPath);
    }
    SkipsNameMissingKeys(site.byName, names, NoPackagesToUninstall);
    SkipsNameMissingKeys(site.byUrl, urls, NoPackagesToUninstall);
    forall k ensures SkippingNotInstalled(k) in Skips(site.byName, names) + Skips(site.byUrl, urls) <==>
        (k in RequestedNames(requirements) && Lookup(site.byName, k) == [])
        || (k in RequestedUrls(requirements) && Lookup(site.byUrl, k) == []) {
      SkipsNameMissingKeys(site.byName, names, SkippingNotInstalled(k));
      SkipsNameMissingKeys(site.byUrl, urls, SkippingNotInstalled(k));
    }
  }

  /** What a removal reports. */
  datatype RemovalSummary = RemovalSummary(fileCount: nat, dirCount: nat)

  /** How the command ends when it succeeds. */
  datatype Conclusion = WouldMakeNoChanges | NothingUninstalled | WouldUninstall(count: nat) | Uninstalled(count: nat)

  /**
   * The whole command: selects the distributions, then, unless the plan is empty or
   * this is a dry run, removes each planned distribution once, in plan order,
   * stopping at the first removal that fails. `attempted` lists the distributions
   * handed to `remove`; `names` and `urls` are the sorted requested names and URLs
   * whose misses the warnings report, in that order.
   */
  method Uninstall<E>(site: SitePackages, requirements: seq<UnresolvedRequirement>, dryRun: bool,
                      remove: InstalledDist -> Result<RemovalSummary, E>)
    returns (status: Result<Conclusion, E>, plan: seq<InstalledDist>, warnings: seq<Warning>,
             attempted: seq<InstalledDist>, ghost names: seq<PackageName>, ghost urls: seq<Url>)
    ensures StrictlySortedBy(plan, InstallPath, PathLess)
    ensures forall d :: d in plan ==> Requested(site, requirements, d)
    ensures forall d :: Requested(site, requirements, d) ==> d.installPath in KeySet(plan, InstallPath)
    ensures plan == [] ==> attempted == [] && status == Ok(if dryRun then WouldMakeNoChanges else NothingUninstalled)
    ensures plan == [] && !dryRun ==> |warnings| > 0 && warnings[|warnings| - 1] == NoPackagesToUninstall
    ensures NoPackagesToUninstall in warnings <==> plan == [] && !dryRun
    ensures StrictlySortedBy(names, Itself, StrLess) && (forall n :: n in names <==> n in RequestedNames(requirements))
    ensures StrictlySortedBy(urls, Itself, StrLess) && (forall u :: u in urls <==> u in RequestedUrls(requirements))
    ensures !dryRun ==>
      warnings == Skips(site.byName, names) + Skips(site.byUrl, urls) + (if plan == [] then [NoPackagesToUninstall] else [])
    ensures !dryRun ==> forall k ::
      SkippingNotInstalled(k) in warnings <==>
        (k in RequestedNames(requirements) && Lookup(site.byName, k) == [])
        || (k in RequestedUrls(requirements) && Lookup(site.byUrl, k) == [])
    ensures dryRun ==> attempted == [] && warnings == []
    ensures dryRun && plan != [] ==> status == Ok(WouldUninstall(|plan|))
    ensures !dryRun && status.Ok? ==> attempted == plan && forall d :: d in plan ==> remove(d).Ok?
    ensures !dryRun && plan != [] && status.Ok? ==> status == Ok(Uninstalled(|plan|))
    ensures status.Err? ==>
      && 0 < |attempted| <= |plan| && attempted == plan[..|attempted|]
      && (forall j :: 0 <= j < |attempted| - 1 ==> remove(attempted[j]).Ok?)
      && remove(attempted[|attempted| - 1]) == Err(status.error)
  {
    plan, warnings, names, urls := SelectDistributions(site, requirements, dryRun);
    attempted := [];

    if plan == [] {
      if dryRun {
        status := Ok(WouldMakeNoChanges);
      } else {
        warnings := warnings + [NoPackagesToUninstall];
        status := Ok(NothingUninstalled);
      }
      return;
    }

    if !dryRun {
      var i := 0;
      while i < |plan|
        invariant i <= |plan|
        invariant attempted == plan[..i]
        invariant forall j :: 0 <= j < i ==> remove(plan[j]).Ok?
      {
        attempted := attempted + [plan[i]];
        var removal := remove(plan[i]);
        if removal.Err? {
          status := Err(removal.error);
          return;
        }
        i := i + 1;
      }
      assert attempted == plan;
    }

    status := Ok(if dryRun then WouldUninstall(|plan|) else Uninstalled(|plan|));
  }

  /** `"{n} package"` or `"{n} packages"`: the singular only for exactly one. */
  function PackageCount(n: nat): (r: string)
    ensures |Render(n)| < |r| && r[..|Render(n)|] == Render(n)
    ensures r[|r| - 1] == 's' <==> n != 1
    ensures n == 1 ==> r == "1 package"
    ensures n != 1 ==> r == Render(n) + " packages"
  {
    Render(n) + " package" + (if n == 1 then "" else "s")
  }

  /** `file` for a count of one, `files` otherwise. */
  function FileNoun(n: nat): (r: string)
    ensures r == "file" <==> n == 1
    ensures r == "files" <==> n != 1
  {
    "file" + (if n == 1 then "" else "s")
  }

  /** `directory` for a count of one, `directories` otherwise. */
  function DirectoryNoun(n: nat): (r: string)
    ensures r == "directory" <==> n == 1
    ensures r == "directories" <==> n != 1
  {
    "director" + (if n == 1 then "y" else "ies")
  }

  /**
   * The line that closes the command, without the elapsed time. An empty plan outside
   * dry run closes with no line of its own: its `NoPackagesToUninstall` warning says it.
   */
  function ConclusionLine(c: Conclusion): (r: Option<string>)
    ensures r.None? <==> c.NothingUninstalled?
    ensures c.WouldMakeNoChanges? ==> r == Some("Would make no changes")
    ensures c.WouldUninstall? ==> r == Some("Would uninstall " + PackageCount(c.count))
    ensures c.Uninstalled? ==> r == Some("Uninstalled " + PackageCount(c.count))
  {
    match c
    case WouldMakeNoChanges => Some("Would make no changes")
    case NothingUninstalled => None
    case WouldUninstall(n) => Some("Would uninstall " + PackageCount(n))
    case Uninstalled(n) => Some("Uninstalled " + PackageCount(n))
  }
}
