/** Which packages, components and test suites a list of changed files calls for. */
module Affected {
  import opened Options
  import opened Ordering
  import opened Text

  datatype Dependency = Dependency(name: string, onPath: bool)
  datatype Target = Target(name: string, kinds: set<string>)
  /** `deferred` is the package's list of qualification-only tests; None when it is not a list of strings. */
  datatype Package = Package(
    directory: string, dependencies: seq<Dependency>, targets: seq<Target>, deferred: Option<seq<string>>)
  type Workspace = map<string, Package>

  // ---------------------------------------------------------------- changed paths

  function Segments(path: string): (parts: seq<string>)
    ensures parts != []
  {
    if path == "" then [""]
    else
      var rest := Segments(path[1..]);
      if path[0] == '/' then [""] + rest else [[path[0]] + rest[0]] + rest[1..]
  }

  /** A normalized path inside the repository. */
  predicate ValidPath(path: string) {
    && (path == "." || forall part | part in Segments(path) :: part !in {"", ".", ".."})
    && forall c | c in path :: c != '\\' && c >= ' '
  }

  predicate ValidPaths(files: seq<string>) {
    0 < |files| <= 10000 && forall path | path in files :: ValidPath(path)
  }

  /** What one path calls for, and the reason given for it. */
  datatype Claim = Claim(packages: set<string>, components: set<string>, reason: seq<string>)

  function Owners(w: Workspace, path: string): set<string> {
    if path in {"Cargo.toml", "Cargo.lock", "rust-toolchain.toml"} then w.Keys
    else set name | name in w && StartsWith(path, w[name].directory + "/")
  }

  const ROOT_SOURCE := {
    "AGENTS.md", "CLAUDE.md", "README.md", "CONTRIBUTING.md", "LICENSE", "NOTICE", ".gitignore",
    ".public-source.json", ".public-test-fixtures.json", "terrier"}

  /** The reviewed mapping for a path no package owns; None refuses it. */
  function Mapping(all: set<string>, path: string): Option<Claim> {
    if StartsWith(path, "crates/agentkeys-chain/") then Some(Claim({}, {"contracts"}, ["contracts", "core"]))
    else if path == "scripts/build-browser-core.py" then
      Some(Claim({"agentkeys-web-core"}, {"ui", "display"}, ["browser library", "ui", "display"]))
    else if path in {"scripts/web-ssr-server.mjs", "scripts/tests/web-ssr-server.test.mjs"} then
      Some(Claim({}, {"display"}, ["display", "source"]))
    else if path in {"package.json", "package-lock.json"} || StartsWith(path, "design-system/") then
      Some(Claim({}, {"ui", "display"}, ["ui", "display"]))
    else if StartsWith(path, "apps/parent-control/") then Some(Claim({}, {"ui"}, ["ui"]))
    else if StartsWith(path, "apps/device-display/") then Some(Claim({}, {"display"}, ["display"]))
    else if StartsWith(path, "packages/") then Some(Claim({}, {"dsh", "managed"}, ["dsh", "managed"]))
    else if StartsWith(path, "e2e/fixtures/") || StartsWith(path, "presets/") then
      Some(Claim(all, {"ui", "display", "dsh", "managed"}, ["all product consumers"]))
    else if StartsWith(path, "provisioner-scripts/") then Some(Claim({}, {"provisioner"}, ["provisioner", "core"]))
    else if path in ROOT_SOURCE || StartsWith(path, "docs/") || StartsWith(path, "LICENSES/")
            || StartsWith(path, ".github/") || StartsWith(path, "scripts/") then
      Some(Claim({}, if StartsWith(path, "scripts/terrier_local/") || StartsWith(path, "scripts/tests/test_test_lanes")
                        || StartsWith(path, "scripts/tests/test_affected") then {"cli"} else {},
                 ["source", "core"]))
    else None
  }

  function ClaimOf(w: Workspace, path: string): Option<Claim> {
    var owners := Owners(w, path);
    if owners != {} then Some(Claim(owners, {}, Sorted(owners))) else Mapping(w.Keys, path)
  }

  predicate AllOwned(w: Workspace, files: seq<string>) { forall path | path in files :: ClaimOf(w, path).Some? }

  function Claimed(w: Workspace, files: seq<string>): set<string>
    requires AllOwned(w, files)
  {
    set path, name | path in files && name in ClaimOf(w, path).value.packages :: name
  }

  function PathComponents(w: Workspace, files: seq<string>): set<string>
    requires AllOwned(w, files)
  {
    set path, component | path in files && component in ClaimOf(w, path).value.components :: component
  }

  function Reasons(w: Workspace, files: seq<string>): map<string, seq<string>>
    requires AllOwned(w, files)
  {
    map path | path in files :: ClaimOf(w, path).value.reason
  }

  // ---------------------------------------------------------------- the closure over consumers

  predicate DependsOn(w: Workspace, consumer: string, s: set<string>) {
    consumer in w && exists d | d in w[consumer].dependencies :: d.onPath && d.name in s
  }

  function Consumers(w: Workspace, s: set<string>): set<string> { set name | name in w && DependsOn(w, name, s) }

  function Closure(w: Workspace, s: set<string>): set<string>
    decreases |w.Keys - s|
  {
    var expanded := s + Consumers(w, s);
    if expanded == s then s
    else
      Shrinks(w, s);
      Closure(w, expanded)
  }

  lemma Shrinks(w: Workspace, s: set<string>)
    requires s + Consumers(w, s) != s
    ensures |w.Keys - (s + Consumers(w, s))| < |w.Keys - s|
  {
    var name :| name in Consumers(w, s) && name !in s;
    SubsetSize(w.Keys - (s + Consumers(w, s)), (w.Keys - s) - {name});
  }

  lemma {:induction false} SubsetSize(a: set<string>, b: set<string>)
    requires a <= b
    ensures |a| <= |b|
  {
    if a != {} {
      var x :| x in a;
      SubsetSize(a - {x}, b - {x});
    }
  }

  ghost predicate Closed(w: Workspace, s: set<string>) { Consumers(w, s) <= s }

  /** The loop's result is the least set that holds the claimed packages and every consumer of its own. */
  lemma {:induction false} ClosureIsLeast(w: Workspace, s: set<string>)
    ensures s <= Closure(w, s) && Closed(w, Closure(w, s))
    ensures forall t | s <= t && Closed(w, t) :: Closure(w, s) <= t
    decreases |w.Keys - s|
  {
    var expanded := s + Consumers(w, s);
    if expanded != s {
      Shrinks(w, s);
      ClosureIsLeast(w, expanded);
      forall t | s <= t && Closed(w, t) ensures expanded <= t {
        ConsumersGrow(w, s, t);
      }
    }
  }

  lemma ConsumersGrow(w: Workspace, s: set<string>, t: set<string>)
    requires s <= t
    ensures Consumers(w, s) <= Consumers(w, t)
  {
  }

  /** A chain of path dependencies: each package depends on the next. */
  ghost predicate Chain(w: Workspace, names: seq<string>) {
    names != [] && (|names| > 1 ==> DependsOn(w, names[0], {names[1]}) && Chain(w, names[1..]))
  }

  ghost predicate Reaches(w: Workspace, name: string, s: set<string>) {
    exists names :: Chain(w, names) && names[0] == name && names[|names| - 1] in s
  }

  lemma {:induction false} ChainStaysIn(w: Workspace, names: seq<string>, t: set<string>)
    requires Chain(w, names) && names[|names| - 1] in t && Closed(w, t)
    ensures names[0] in t
  {
    if |names| > 1 {
      ChainStaysIn(w, names[1..], t);
      assert names[0] in Consumers(w, t);
    }
  }

  lemma {:induction false} RoundsReach(w: Workspace, s: set<string>, origin: set<string>)
    requires forall name | name in s :: Reaches(w, name, origin)
    ensures forall name | name in Closure(w, s) :: Reaches(w, name, origin)
    decreases |w.Keys - s|
  {
    var expanded := s + Consumers(w, s);
    if expanded != s {
      forall name | name in Consumers(w, s) ensures Reaches(w, name, origin) {
        var d :| d in w[name].dependencies && d.onPath && d.name in s;
        var names :| Chain(w, names) && names[0] == d.name && names[|names| - 1] in origin;
        var longer := [name] + names;
        assert longer[1..] == names && DependsOn(w, name, {d.name});
        assert Chain(w, longer);
        assert longer[|longer| - 1] in origin;
      }
      Shrinks(w, s);
      RoundsReach(w, expanded, origin);
    }
  }

  /** A package is selected exactly when a chain of path dependencies leads from it to a claimed package. */
  lemma ClosureIsReachability(w: Workspace, s: set<string>, name: string)
    ensures name in Closure(w, s) <==> Reaches(w, name, s)
  {
    ClosureIsLeast(w, s);
    forall x | x in s ensures Reaches(w, x, s) {
      assert Chain(w, [x]);
    }
    RoundsReach(w, s, s);
    if Reaches(w, name, s) {
      var names :| Chain(w, names) && names[0] == name && names[|names| - 1] in s;
      ChainStaysIn(w, names, Closure(w, s));
    }
  }

  lemma ClosedUnion(w: Workspace, s: set<string>, t: set<string>)
    requires Closed(w, s) && Closed(w, t)
    ensures Closed(w, s + t)
  {
    forall name | name in Consumers(w, s + t) ensures name in s + t {
      var d :| d in w[name].dependencies && d.onPath && d.name in s + t;
      if d.name in s {
        assert name in Consumers(w, s);
      } else {
        assert name in Consumers(w, t);
      }
    }
  }

  lemma ClosureOfUnion(w: Workspace, s: set<string>, t: set<string>)
    ensures Closure(w, s + t) == Closure(w, s) + Closure(w, t)
  {
    var cs, ct, both := Closure(w, s), Closure(w, t), Closure(w, s + t);
    ClosureIsLeast(w, s);
    ClosureIsLeast(w, t);
    ClosureIsLeast(w, s + t);
    ClosedUnion(w, cs, ct);
    assert s + t <= cs + ct;
    assert s <= both && t <= both;
  }

  /** The expansion loop: rounds of direct consumers until nothing is added. */
  method Close(w: Workspace, claimed: set<string>) returns (affected: set<string>)
    ensures affected == Closure(w, claimed)
  {
    affected := claimed;
    while true
      invariant Closure(w, affected) == Closure(w, claimed)
      decreases |w.Keys - affected|
    {
      var consumers := set name | name in w && DependsOn(w, name, affected);
      var expanded := affected + consumers;
      if expanded == affected {
        break;
      }
      Shrinks(w, affected);
      affected := expanded;
    }
  }

  // ---------------------------------------------------------------- what the packages call for

  const PACKAGE_COMPONENTS: map<string, string> := map[
    "agentkeys-protocol" := "protocol", "agentkeys-runtime" := "runtime", "agentkeys-broker-server" := "broker",
    "agentkeys-mock-server" := "signer", "agentkeys-gate" := "relay", "agentkeys-bundler" := "bundler",
    "agentkeys-daemon" := "daemon", "agentkeys-local-store" := "storage", "agentkeys-cli" := "cli"]

  datatype Suite = Library(package: string) | Test(package: string, target: string)

  predicate IsLibrary(p: Package) { exists t | t in p.targets :: t.kinds * {"lib", "rlib", "proc-macro"} != {} }

  function TestNames(p: Package): set<string> { set t | t in p.targets && "test" in t.kinds :: t.name }

  /** The package is known, has a suite, a component or a build, and defers only tests of its own. */
  predicate Mapped(w: Workspace, name: string) {
    && name in w
    && (name in PACKAGE_COMPONENTS || IsLibrary(w[name]) || name == "agentkeys-classify-dataset")
    && w[name].deferred.Some? && forall test | test in w[name].deferred.value :: test in TestNames(w[name])
  }

  predicate AllMapped(w: Workspace, names: set<string>)
    ensures AllMapped(w, names) ==> names <= w.Keys
  {
    forall name | name in names :: Mapped(w, name)
  }

  predicate TestsTouched(p: Package, files: seq<string>) {
    exists path | path in files :: StartsWith(path, p.directory + "/tests/")
  }

  function ComponentsOf(name: string): set<string> {
    (if name in PACKAGE_COMPONENTS then {PACKAGE_COMPONENTS[name]} else {})
    + (if name == "agentkeys-web-core" then {"ui", "display"} else {})
  }

  function SuitesOf(p: Package, name: string, touched: bool): set<Suite> {
    (if name !in PACKAGE_COMPONENTS && IsLibrary(p) then {Library(name)} else {})
    + (if touched then set target | target in TestNames(p) :: Test(name, target) else {})
  }

  function BuildsOf(p: Package, name: string): set<string> {
    if name !in PACKAGE_COMPONENTS && !IsLibrary(p) then {name} else {}
  }

  function DeferredOf(p: Package, name: string, touched: bool): set<Suite> {
    if touched && p.deferred.Some? then
      set target | target in TestNames(p) && target in p.deferred.value :: Test(name, target)
    else {}
  }

  datatype Selection = Selection(
    components: set<string>, packages: set<string>, suites: set<Suite>, builds: set<string>,
    qualificationOnly: set<Suite>)
  datatype Outcome = Invalid | NoOwner | Unmapped | Selected(selection: Selection)

  function Over<T>(names: set<string>, part: string -> set<T>): set<T> { set n, x | n in names && x in part(n) :: x }

  function Suites(w: Workspace, files: seq<string>): string -> set<Suite> {
    n => if n in w then SuitesOf(w[n], n, TestsTouched(w[n], files)) else {}
  }

  function Builds(w: Workspace): string -> set<string> { n => if n in w then BuildsOf(w[n], n) else {} }

  function Deferred(w: Workspace, files: seq<string>): string -> set<Suite> {
    n => if n in w then DeferredOf(w[n], n, TestsTouched(w[n], files)) else {}
  }

  /** What one package adds to the selection, part by part. */
  datatype Parts = Parts(
    components: string -> set<string>, suites: string -> set<Suite>, builds: string -> set<string>,
    deferred: string -> set<Suite>)

  function PartsOf(w: Workspace, files: seq<string>): Parts {
    Parts(ComponentsOf, Suites(w, files), Builds(w), Deferred(w, files))
  }

  function Together(a: Selection, b: Selection): Selection {
    Selection(a.components + b.components, a.packages + b.packages, a.suites + b.suites, a.builds + b.builds,
              a.qualificationOnly + b.qualificationOnly)
  }

  /** All contributions of `names`, on top of the components the paths asked for. */
  function Gather(parts: Parts, names: set<string>, components: set<string>): Selection {
    Selection(components + Over(names, parts.components), names, Over(names, parts.suites), Over(names, parts.builds),
              Over(names, parts.deferred))
  }

  function Selecting(w: Workspace, files: seq<string>): Outcome {
    if !ValidPaths(files) then Invalid
    else if !AllOwned(w, files) then NoOwner
    else
      var affected := Closure(w, Claimed(w, files));
      if AllMapped(w, affected) then Selected(Gather(PartsOf(w, files), affected, PathComponents(w, files)))
      else Unmapped
  }

  // ---------------------------------------------------------------- the selection as it is printed

  /** The test targets of one package, in its own order. */
  function TestList(targets: seq<Target>, name: string): seq<Suite> {
    if targets == [] then []
    else
      var last := targets[|targets| - 1];
      TestList(targets[..|targets| - 1], name) + (if "test" in last.kinds then [Test(name, last.name)] else [])
  }

  function SuiteList(p: Package, name: string, touched: bool): seq<Suite> {
    (if name !in PACKAGE_COMPONENTS && IsLibrary(p) then [Library(name)] else [])
    + (if touched then TestList(p.targets, name) else [])
  }

  function DeferredOnly(suites: seq<Suite>, deferred: seq<string>): seq<Suite> {
    if suites == [] then []
    else
      var last := suites[|suites| - 1];
      DeferredOnly(suites[..|suites| - 1], deferred) + (if last.Test? && last.target in deferred then [last] else [])
  }

  /** What the loop over the packages has collected. */
  datatype Lists = Lists(components: set<string>, suites: seq<Suite>, builds: seq<string>, deferred: seq<Suite>)

  /** One package more. */
  function Extended(l: Lists, p: Package, name: string, touched: bool): Lists {
    Lists(
      l.components + ComponentsOf(name),
      l.suites + SuiteList(p, name, touched),
      l.builds + (if name !in PACKAGE_COMPONENTS && !IsLibrary(p) then [name] else []),
      l.deferred + (if touched && p.deferred.Some? then DeferredOnly(TestList(p.targets, name), p.deferred.value)
                    else []))
  }

  function Gathered(w: Workspace, files: seq<string>, names: seq<string>, components: set<string>): Lists
    requires forall name | name in names :: name in w
  {
    if names == [] then Lists(components, [], [], [])
    else
      var name := names[|names| - 1];
      Extended(Gathered(w, files, names[..|names| - 1], components), w[name], name, TestsTouched(w[name], files))
  }

  /** The first package of the list that has no reviewed mapping. */
  function FirstUnmapped(w: Workspace, names: seq<string>): Option<string> {
    if names == [] then None else if Mapped(w, names[0]) then FirstUnmapped(w, names[1..]) else Some(names[0])
  }

  lemma {:induction false} NoneUnmapped(w: Workspace, names: seq<string>)
    ensures FirstUnmapped(w, names).None? <==> forall name | name in names :: Mapped(w, name)
    ensures FirstUnmapped(w, names).Some? ==>
      exists k | 0 <= k < |names| :: names[k] == FirstUnmapped(w, names).value && !Mapped(w, names[k])
                                     && forall j | 0 <= j < k :: Mapped(w, names[j])
  {
    if names != [] {
      assert names == [names[0]] + names[1..];
      NoneUnmapped(w, names[1..]);
      if Mapped(w, names[0]) && FirstUnmapped(w, names[1..]).Some? {
        var k :| 0 <= k < |names[1..]| && names[1..][k] == FirstUnmapped(w, names[1..]).value
                 && !Mapped(w, names[1..][k]) && forall j | 0 <= j < k :: Mapped(w, names[1..][j]);
        assert forall j | 0 < j < k + 1 :: names[j] == names[1..][j - 1];
        assert names[k + 1] == names[1..][k];
      }
    }
  }

  datatype Report = Report(
    components: seq<string>, packages: seq<string>, suites: seq<Suite>, builds: seq<string>,
    qualificationOnly: seq<Suite>, reasons: map<string, seq<string>>)
  datatype Answer = BadPaths | Unclaimed | NoMapping(package: string) | Listed(report: Report)

  function Reporting(w: Workspace, files: seq<string>): Answer {
    if !ValidPaths(files) then BadPaths
    else if !AllOwned(w, files) then Unclaimed
    else
      var names := Sorted(Closure(w, Claimed(w, files)));
      var unmapped := FirstUnmapped(w, names);
      NoneUnmapped(w, names);
      if unmapped.Some? then NoMapping(unmapped.value)
      else
        var l := Gathered(w, files, names, PathComponents(w, files));
        Listed(Report(Sorted(l.components), names, l.suites, l.builds, l.deferred, Reasons(w, files)))
  }

  lemma PackagesMore(w: Workspace, front: seq<string>, path: string)
    requires AllOwned(w, front) && ClaimOf(w, path).Some?
    ensures AllOwned(w, front + [path])
    ensures Claimed(w, front + [path]) == Claimed(w, front) + ClaimOf(w, path).value.packages
  {
  }

  lemma ComponentsMore(w: Workspace, front: seq<string>, path: string)
    requires AllOwned(w, front) && AllOwned(w, front + [path])
    ensures path in front + [path]
    ensures PathComponents(w, front + [path]) == PathComponents(w, front) + ClaimOf(w, path).value.components
  {
    assert forall p | p in front + [path] :: p in front || p == path;
  }

  lemma ReasonsMore(w: Workspace, front: seq<string>, path: string)
    requires AllOwned(w, front) && AllOwned(w, front + [path])
    ensures path in front + [path]
    ensures Reasons(w, front + [path]) == Reasons(w, front)[path := ClaimOf(w, path).value.reason]
  {
    assert forall p | p in front + [path] :: p in front || p == path;
  }

  /** The loop over the changed paths. */
  method ClaimPaths(w: Workspace, files: seq<string>)
    returns (owned: bool, claimed: set<string>, components: set<string>, reasons: map<string, seq<string>>)
    ensures owned == AllOwned(w, files)
    ensures owned ==> claimed == Claimed(w, files) && components == PathComponents(w, files)
    ensures owned ==> reasons == Reasons(w, files)
  {
    owned, claimed, components, reasons := true, {}, {}, map[];
    for k := 0 to |files|
      invariant AllOwned(w, files[..k])
      invariant claimed == Claimed(w, files[..k]) && components == PathComponents(w, files[..k])
      invariant reasons == Reasons(w, files[..k])
    {
      assert files[..k + 1] == files[..k] + [files[k]];
      var claim := ClaimOf(w, files[k]);
      if claim.None? {
        assert files[k] in files;
        return false, {}, {}, map[];
      }
      PackagesMore(w, files[..k], files[k]);
      ComponentsMore(w, files[..k], files[k]);
      ReasonsMore(w, files[..k], files[k]);
      claimed := claimed + claim.value.packages;
      components := components + claim.value.components;
      reasons := reasons[files[k] := claim.value.reason];
    }
    assert files[..|files|] == files;
  }

  /** The loop over the affected packages, in their order; the first unmapped one ends it. */
  method GatherPackages(w: Workspace, files: seq<string>, names: seq<string>, components: set<string>)
    returns (unmapped: Option<string>, lists: Lists)
    ensures unmapped == FirstUnmapped(w, names)
    ensures unmapped.None? ==>
      (forall name | name in names :: name in w) && lists == Gathered(w, files, names, components)
  {
    lists := Lists(components, [], [], []);
    for i := 0 to |names|
      invariant FirstUnmapped(w, names[i..]) == FirstUnmapped(w, names)
      invariant forall name | name in names[..i] :: name in w
      invariant lists == Gathered(w, files, names[..i], components)
    {
      var name := names[i];
      assert names[i..][0] == name && names[i..][1..] == names[i + 1..];
      if !Mapped(w, name) {
        return Some(name), lists;
      }
      assert names[..i + 1][..i] == names[..i] && names[..i + 1] == names[..i] + [name];
      lists := Extended(lists, w[name], name, TestsTouched(w[name], files));
    }
    assert names[..|names|] == names;
    unmapped := None;
  }

  method Select(w: Workspace, files: seq<string>) returns (answer: Answer)
    ensures answer == Reporting(w, files)
  {
    if !ValidPaths(files) {
      return BadPaths;
    }
    var owned, claimed, components, reasons := ClaimPaths(w, files);
    if !owned {
      return Unclaimed;
    }
    var affected := Close(w, claimed);
    var names := Sorted(affected);
    var unmapped, lists := GatherPackages(w, files, names, components);
    if unmapped.Some? {
      return NoMapping(unmapped.value);
    }
    answer := Listed(Report(Sorted(lists.components), names, lists.suites, lists.builds, lists.deferred, reasons));
  }

  // ---------------------------------------------------------------- the lists hold the selection

  predicate Holds<T(==)>(list: seq<T>, s: set<T>) { (forall x | x in list :: x in s) && forall x | x in s :: x in list }

  lemma {:induction false} TestListHolds(targets: seq<Target>, name: string)
    ensures forall x :: x in TestList(targets, name) <==>
              x.Test? && x.package == name && exists t | t in targets :: "test" in t.kinds && t.name == x.target
  {
    if targets != [] {
      TestListHolds(targets[..|targets| - 1], name);
      assert targets == targets[..|targets| - 1] + [targets[|targets| - 1]];
    }
  }

  lemma {:induction false} DeferredHolds(suites: seq<Suite>, deferred: seq<string>)
    ensures forall x :: x in DeferredOnly(suites, deferred) <==> x in suites && x.Test? && x.target in deferred
  {
    if suites != [] {
      DeferredHolds(suites[..|suites| - 1], deferred);
      assert suites == suites[..|suites| - 1] + [suites[|suites| - 1]];
    }
  }

  lemma OverAdd<T>(names: set<string>, name: string, part: string -> set<T>)
    ensures Over(names + {name}, part) == Over(names, part) + part(name)
  {
  }

  /** The lists hold exactly what the packages contribute. */
  ghost predicate ListsHold(w: Workspace, files: seq<string>, l: Lists, names: set<string>, components: set<string>) {
    && l.components == components + Over(names, ComponentsOf)
    && Holds(l.suites, Over(names, Suites(w, files)))
    && Holds(l.builds, Over(names, Builds(w)))
    && Holds(l.deferred, Over(names, Deferred(w, files)))
  }

  lemma PackageHolds(p: Package, name: string, touched: bool)
    ensures Holds(SuiteList(p, name, touched), SuitesOf(p, name, touched))
    ensures p.deferred.Some? ==>
      Holds(if touched then DeferredOnly(TestList(p.targets, name), p.deferred.value) else [],
            DeferredOf(p, name, touched))
  {
    TestListHolds(p.targets, name);
    if p.deferred.Some? {
      DeferredHolds(TestList(p.targets, name), p.deferred.value);
    }
  }

  lemma AppendHolds<T>(a: seq<T>, b: seq<T>, s: set<T>, t: set<T>)
    requires Holds(a, s) && Holds(b, t)
    ensures Holds(a + b, s + t)
  {
  }

  lemma {:induction false} GatheredHolds(w: Workspace, files: seq<string>, names: seq<string>, components: set<string>)
    requires forall name | name in names :: name in w && Mapped(w, name)
    ensures ListsHold(w, files, Gathered(w, files, names, components), (set n | n in names), components)
  {
    if names != [] {
      var front, name := names[..|names| - 1], names[|names| - 1];
      assert names == front + [name];
      assert (set n | n in names) == (set n | n in front) + {name};
      GatheredHolds(w, files, front, components);
      ExtendedHolds(w, files, Gathered(w, files, front, components), (set n | n in front), name, components);
    }
  }

  lemma ExtendedHolds(w: Workspace, files: seq<string>, l: Lists, names: set<string>, name: string,
                      components: set<string>)
    requires ListsHold(w, files, l, names, components) && Mapped(w, name)
    ensures ListsHold(w, files, Extended(l, w[name], name, TestsTouched(w[name], files)), names + {name}, components)
  {
    var p, touched := w[name], TestsTouched(w[name], files);
    PackageHolds(p, name, touched);
    OverAdd(names, name, ComponentsOf);
    OverAdd(names, name, Suites(w, files));
    OverAdd(names, name, Builds(w));
    OverAdd(names, name, Deferred(w, files));
    AppendHolds(l.suites, SuiteList(p, name, touched), Over(names, Suites(w, files)), SuitesOf(p, name, touched));
    AppendHolds(l.builds, if name !in PACKAGE_COMPONENTS && !IsLibrary(p) then [name] else [],
                Over(names, Builds(w)), BuildsOf(p, name));
    AppendHolds(l.deferred, if touched then DeferredOnly(TestList(p.targets, name), p.deferred.value) else [],
                Over(names, Deferred(w, files)), DeferredOf(p, name, touched));
  }

  /** Package by package, in ascending order. */
  predicate ByPackage(suites: seq<Suite>) {
    forall i, j | 0 <= i < j < |suites| ::
      suites[i].package == suites[j].package || Before(suites[i].package, suites[j].package)
  }

  lemma LastIsAfter(front: seq<string>, name: string)
    requires Ascending(front + [name])
    ensures Ascending(front) && forall n | n in front :: Before(n, name)
  {
    var names := front + [name];
    assert forall i | 0 <= i < |front| :: names[i] == front[i];
    forall n | n in front ensures Before(n, name) {
      var k :| 0 <= k < |front| && front[k] == n;
      assert Before(names[k], names[|front|]);
    }
  }

  lemma OwnSuites(p: Package, name: string, touched: bool)
    ensures forall x | x in SuiteList(p, name, touched) :: x.package == name
  {
    TestListHolds(p.targets, name);
  }

  lemma {:induction false} GatheredInOrder(w: Workspace, files: seq<string>, names: seq<string>,
                                           components: set<string>)
    requires Ascending(names) && forall name | name in names :: name in w
    ensures var l := Gathered(w, files, names, components);
      ByPackage(l.suites) && forall x | x in l.suites :: x.package in names
  {
    if names != [] {
      var front, name := names[..|names| - 1], names[|names| - 1];
      assert names == front + [name];
      LastIsAfter(front, name);
      GatheredInOrder(w, files, front, components);
      OwnSuites(w[name], name, TestsTouched(w[name], files));
      OrderedAppend(Gathered(w, files, front, components).suites,
                    SuiteList(w[name], name, TestsTouched(w[name], files)), name);
    }
  }

  lemma OrderedAppend(a: seq<Suite>, b: seq<Suite>, name: string)
    requires ByPackage(a) && (forall x | x in a :: Before(x.package, name)) && forall x | x in b :: x.package == name
    ensures ByPackage(a + b)
  {
    assert forall i | 0 <= i < |a| :: a[i] in a;
    assert forall j | 0 <= j < |b| :: b[j] in b;
  }

  /** The first of the packages, in ascending order, that has no mapping. */
  ghost predicate IsFirstUnmapped(w: Workspace, all: set<string>, name: string) {
    name in all && !Mapped(w, name) && forall other | other in all :: Before(other, name) ==> Mapped(w, other)
  }

  lemma LaterIsNotBefore(names: seq<string>, k: nat, j: nat)
    requires Ascending(names) && k <= j < |names|
    ensures !Before(names[j], names[k])
  {
    BeforeIsTotal(names[k], names[j]);
  }

  lemma FirstOfSorted(w: Workspace, names: seq<string>, all: set<string>)
    requires Ascending(names) && Holds(names, all) && FirstUnmapped(w, names).Some?
    ensures IsFirstUnmapped(w, all, FirstUnmapped(w, names).value)
  {
    NoneUnmapped(w, names);
    var name := FirstUnmapped(w, names).value;
    var k :| 0 <= k < |names| && names[k] == name && !Mapped(w, name) && forall j | 0 <= j < k :: Mapped(w, names[j]);
    forall other | other in all && Before(other, name) ensures Mapped(w, other) {
      var j :| 0 <= j < |names| && names[j] == other;
      if k <= j {
        LaterIsNotBefore(names, k, j);
      }
    }
  }

  /** Every list holds exactly what is selected, components and packages each once in ascending order, suites package
      by package, with a reason for each changed path and no other. */
  ghost predicate Reports(r: Report, s: Selection, files: seq<string>) {
    && Ascending(r.components) && Holds(r.components, s.components)
    && Ascending(r.packages) && Holds(r.packages, s.packages)
    && ByPackage(r.suites) && Holds(r.suites, s.suites) && Holds(r.builds, s.builds)
    && Holds(r.qualificationOnly, s.qualificationOnly)
    && r.reasons.Keys == set path | path in files
  }

  lemma ListsReport(w: Workspace, files: seq<string>, names: seq<string>, affected: set<string>,
                    components: set<string>, reasons: map<string, seq<string>>)
    requires Ascending(names) && Holds(names, affected) && reasons.Keys == set path | path in files
    requires forall name | name in names :: name in w && Mapped(w, name)
    ensures var l := Gathered(w, files, names, components);
      Reports(Report(Sorted(l.components), names, l.suites, l.builds, l.deferred, reasons),
              Gather(PartsOf(w, files), affected, components), files)
  {
    assert (set n | n in names) == affected;
    GatheredHolds(w, files, names, components);
    GatheredInOrder(w, files, names, components);
  }

  /** The report is the selection: it is refused for the same changes, naming the first package without a mapping, and
      otherwise its lists are the selection's sets. */
  lemma ReportExactly(w: Workspace, files: seq<string>)
    ensures var answer, outcome := Reporting(w, files), Selecting(w, files);
      && (answer.BadPaths? <==> outcome.Invalid?)
      && (answer.Unclaimed? <==> outcome.NoOwner?)
      && (answer.NoMapping? <==> outcome.Unmapped?)
      && (answer.NoMapping? ==>
            AllOwned(w, files) && IsFirstUnmapped(w, Closure(w, Claimed(w, files)), answer.package))
      && (answer.Listed? ==> outcome.Selected? && Reports(answer.report, outcome.selection, files))
  {
    if ValidPaths(files) && AllOwned(w, files) {
      var affected := Closure(w, Claimed(w, files));
      var names := Sorted(affected);
      NoneUnmapped(w, names);
      if FirstUnmapped(w, names).Some? {
        FirstOfSorted(w, names, affected);
      } else {
        ListsReport(w, files, names, affected, PathComponents(w, files), Reasons(w, files));
      }
    }
  }

  // ---------------------------------------------------------------- the promises

  lemma MappedUnion(w: Workspace, ca: set<string>, cb: set<string>, all: set<string>)
    requires all == ca + cb
    ensures AllMapped(w, all) <==> AllMapped(w, ca) && AllMapped(w, cb)
  {
  }

  /** A touched test directory belongs to its package, whatever else the path matches. */
  lemma TestFilesAreOwned(w: Workspace, path: string, name: string)
    requires name in w && StartsWith(path, w[name].directory + "/tests/")
    ensures name in Owners(w, path) && ClaimOf(w, path) == Some(Claim(Owners(w, path), {}, Sorted(Owners(w, path))))
  {
    var d := w[name].directory;
    assert (d + "/tests/")[..|d| + 1] == d + "/";
    assert path[..|d| + 1] == (d + "/tests/")[..|d| + 1];
  }

  /** Whatever part of a change touches a package's tests also selects the package. */
  lemma TouchedPartSelects(w: Workspace, files: seq<string>, name: string)
    requires name in w && AllOwned(w, files) && TestsTouched(w[name], files)
    ensures name in Closure(w, Claimed(w, files))
  {
    var path :| path in files && StartsWith(path, w[name].directory + "/tests/");
    TestFilesAreOwned(w, path, name);
    assert name in ClaimOf(w, path).value.packages;
    ClosureIsLeast(w, Claimed(w, files));
  }

  lemma ClaimsOfUnion(w: Workspace, a: seq<string>, b: seq<string>)
    ensures AllOwned(w, a + b) <==> AllOwned(w, a) && AllOwned(w, b)
    ensures AllOwned(w, a + b) ==>
      && Claimed(w, a + b) == Claimed(w, a) + Claimed(w, b)
      && PathComponents(w, a + b) == PathComponents(w, a) + PathComponents(w, b)
  {
    assert forall path | path in a :: path in a + b;
    assert forall path | path in b :: path in a + b;
  }

  lemma ValidityOfUnion(a: seq<string>, b: seq<string>)
    requires a != [] && b != [] && |a + b| <= 10000
    ensures ValidPaths(a + b) <==> ValidPaths(a) && ValidPaths(b)
  {
    assert forall path | path in a :: path in a + b;
    assert forall path | path in b :: path in a + b;
  }

  /** Selecting for a combined change succeeds exactly when it succeeds for both parts, and then it selects
      exactly what the two parts select: packages, components, suites, builds and deferred suites. */
  lemma UnionExactly(w: Workspace, a: seq<string>, b: seq<string>)
    requires a != [] && b != [] && |a + b| <= 10000
    ensures Selecting(w, a + b).Selected? <==> Selecting(w, a).Selected? && Selecting(w, b).Selected?
    ensures Selecting(w, a + b).Selected? ==>
      Selecting(w, a + b).selection == Together(Selecting(w, a).selection, Selecting(w, b).selection)
  {
    ValidityOfUnion(a, b);
    ClaimsOfUnion(w, a, b);
    if ValidPaths(a + b) && AllOwned(w, a + b) {
      var ca, cb := Closure(w, Claimed(w, a)), Closure(w, Claimed(w, b));
      var all := Closure(w, Claimed(w, a + b));
      ClosureOfUnion(w, Claimed(w, a), Claimed(w, b));
      MappedUnion(w, ca, cb, all);
      if AllMapped(w, all) {
        forall n | n in w
          ensures TestsTouched(w[n], a) ==> n in ca
          ensures TestsTouched(w[n], b) ==> n in cb
        {
          if TestsTouched(w[n], a) { TouchedPartSelects(w, a, n); }
          if TestsTouched(w[n], b) { TouchedPartSelects(w, b, n); }
        }
        GatherUnion(w, a, b, ca, cb, PathComponents(w, a), PathComponents(w, b));
      }
    }
  }

  function Within<T>(names: set<string>, n: string, part: string -> set<T>): set<T> {
    if n in names then part(n) else {}
  }

  lemma OverUnion<T>(p: set<string>, q: set<string>, f: string -> set<T>, g: string -> set<T>, h: string -> set<T>)
    requires forall n | n in p + q :: h(n) == Within(p, n, f) + Within(q, n, g)
    ensures Over(p + q, h) == Over(p, f) + Over(q, g)
  {
    assert forall n | n in p + q :: h(n) == Within(p, n, f) + Within(q, n, g);
  }

  lemma TouchedByEither(w: Workspace, a: seq<string>, b: seq<string>, name: string)
    requires name in w
    ensures TestsTouched(w[name], a + b) <==> TestsTouched(w[name], a) || TestsTouched(w[name], b)
  {
    assert forall path | path in a :: path in a + b;
    assert forall path | path in b :: path in a + b;
  }

  /** A package whose tests a part of the change touches is selected by that part. */
  ghost predicate TouchedSelected(w: Workspace, files: seq<string>, names: set<string>) {
    forall n | n in w && TestsTouched(w[n], files) :: n in names
  }

  lemma SuitesUnion(w: Workspace, a: seq<string>, b: seq<string>, ca: set<string>, cb: set<string>)
    requires ca + cb <= w.Keys && TouchedSelected(w, a, ca) && TouchedSelected(w, b, cb)
    ensures Over(ca + cb, Suites(w, a + b)) == Over(ca, Suites(w, a)) + Over(cb, Suites(w, b))
  {
    forall n | n in ca + cb
      ensures Suites(w, a + b)(n) == Within(ca, n, Suites(w, a)) + Within(cb, n, Suites(w, b))
    {
      TouchedByEither(w, a, b, n);
    }
    OverUnion(ca, cb, Suites(w, a), Suites(w, b), Suites(w, a + b));
  }

  lemma DeferredUnion(w: Workspace, a: seq<string>, b: seq<string>, ca: set<string>, cb: set<string>)
    requires ca + cb <= w.Keys && TouchedSelected(w, a, ca) && TouchedSelected(w, b, cb)
    ensures Over(ca + cb, Deferred(w, a + b)) == Over(ca, Deferred(w, a)) + Over(cb, Deferred(w, b))
  {
    forall n | n in ca + cb
      ensures Deferred(w, a + b)(n) == Within(ca, n, Deferred(w, a)) + Within(cb, n, Deferred(w, b))
    {
      TouchedByEither(w, a, b, n);
    }
    OverUnion(ca, cb, Deferred(w, a), Deferred(w, b), Deferred(w, a + b));
  }

  lemma FieldsUnion(x: Selection, y: Selection, p: set<string>, q: set<string>, cx: set<string>, cy: set<string>)
    requires x.components == p + cx && y.components == q + cy
    ensures Together(x, y).components == (p + q) + (cx + cy)
  {
  }

  lemma GatherUnion(w: Workspace, a: seq<string>, b: seq<string>, ca: set<string>, cb: set<string>,
                    pa: set<string>, pb: set<string>)
    requires ca + cb <= w.Keys && TouchedSelected(w, a, ca) && TouchedSelected(w, b, cb)
    ensures Gather(PartsOf(w, a + b), ca + cb, pa + pb)
         == Together(Gather(PartsOf(w, a), ca, pa), Gather(PartsOf(w, b), cb, pb))
  {
    SuitesUnion(w, a, b, ca, cb);
    DeferredUnion(w, a, b, ca, cb);
    OverUnion(ca, cb, ComponentsOf, ComponentsOf, ComponentsOf);
    OverUnion(ca, cb, Builds(w), Builds(w), Builds(w));
    FieldsUnion(Gather(PartsOf(w, a), ca, pa), Gather(PartsOf(w, b), cb, pb), pa, pb,
                Over(ca, ComponentsOf), Over(cb, ComponentsOf));
  }
}
