/** Who owns what below node_modules in the bundled tree: package roots, the containers around
    them, and the subtree comparison with the registry. Paths are lists of segments. */
module BundleOwnership {
  import opened Bytes
  import opened Options
  import opened Packages

  type Segment = seq<Byte>
  type Path = seq<Segment>

  type Manifest = map<Path, Entry>

  /** "node_modules" */
  const MODULES: Segment := [0x6e, 0x6f, 0x64, 0x65, 0x5f, 0x6d, 0x6f, 0x64, 0x75, 0x6c, 0x65, 0x73]

  predicate Scoped(s: Segment) {
    s != [] && s[0] == 0x40
  }

  // ---- Package roots ----

  /** Segments of the package at the start of `path`, scope included; 0 if there is none. */
  function FirstPackage(path: Path): (n: nat)
    ensures n <= |path|
  {
    if |path| < 2 || path[0] != MODULES then 0
    else if Scoped(path[1]) then (if |path| < 3 || path[2] == [] then 0 else 3)
    else if path[1] == [] then 0
    else 2
  }

  /** packedNodeModulesPackageRoot: one or more packages, each in the node_modules of the one before. */
  predicate IsChain(path: Path)
    decreases |path|
  {
    path == [] || (FirstPackage(path) > 0 && IsChain(path[FirstPackage(path)..]))
  }

  predicate IsRoot(path: Path) {
    path != [] && IsChain(path)
  }

  predicate Extends(path: Path, root: Path) {
    |root| < |path| && path[..|root|] == root
  }

  /** A path belongs to the package right above it, not to one reached through node_modules. */
  predicate Belongs(path: Path, root: Path) {
    Extends(path, root) && path[|root|] != MODULES
  }

  /** A package inside another lies in its node_modules. */
  lemma {:induction false} NestedThroughModules(inner: Path, outer: Path)
    requires IsChain(inner) && IsChain(outer) && Extends(inner, outer)
    ensures inner[|outer|] == MODULES
    decreases |outer|
  {
    if outer != [] {
      var n := FirstPackage(outer);
      assert n <= |outer| < |inner|;
      assert forall i :: 0 <= i < |outer| ==> inner[i] == outer[i];
      assert FirstPackage(inner) == n;
      assert inner[n..][..|outer| - n] == outer[n..];
      NestedThroughModules(inner[n..], outer[n..]);
      assert inner[n..][|outer[n..]|] == inner[|outer|];
    }
  }

  /** No path belongs to two packages. */
  lemma OwnerIsUnique(path: Path, a: Path, b: Path)
    requires IsRoot(a) && IsRoot(b) && Belongs(path, a) && Belongs(path, b)
    ensures a == b
  {
    if |a| < |b| {
      assert a == path[..|a|] == b[..|a|];
      assert b[|a|] == path[|a|];
      NestedThroughModules(b, a);
    } else if |b| < |a| {
      assert b == path[..|b|] == a[..|b|];
      assert a[|b|] == path[|b|];
      NestedThroughModules(a, b);
    }
  }

  // ---- Containers ----

  /** The directories that only hold packages: each node_modules, each scope, each package root. */
  ghost predicate IsContainer(roots: set<Path>, path: Path) {
    || path == [MODULES]
    || path in roots
    || exists root, i :: root in roots && 0 <= i < |root| && root[i] == MODULES && ContainerAt(root, i, path)
  }

  predicate ContainerAt(root: Path, i: nat, path: Path)
    requires i < |root|
  {
    || path == root[..i + 1]
    || (i + 1 < |root| && Scoped(root[i + 1]) && path == root[..i + 2])
  }

  method ContainersOf(root: Path, before: set<Path>) returns (after: set<Path>)
    ensures forall p :: p in after <==> p in before || p == root
                                        || exists i :: 0 <= i < |root| && root[i] == MODULES && ContainerAt(root, i, p)
  {
    after := before + {root};
    var index := 0;
    while index < |root|
      invariant 0 <= index <= |root|
      invariant forall p :: p in after <==> p in before || p == root
                                            || exists i :: 0 <= i < index && root[i] == MODULES && ContainerAt(root, i, p)
    {
      ghost var was := after;
      if root[index] == MODULES {
        after := after + {root[..index + 1]};
        if index + 1 < |root| && Scoped(root[index + 1]) {
          after := after + {root[..index + 2]};
        }
        assert forall p :: p in after <==> p in was || ContainerAt(root, index, p);
      }
      index := index + 1;
    }
  }

  method BundledPackageContainerPaths(roots: seq<Path>) returns (r: Option<set<Path>>)
    ensures r.Some? <==> forall root :: root in roots ==> IsRoot(root)
    ensures r.Some? ==> forall p :: p in r.value <==> IsContainer(Roots(roots), p)
  {
    hide ContainerAt, IsRoot;
    var containers := {[MODULES]};
    var k := 0;
    while k < |roots|
      invariant 0 <= k <= |roots|
      invariant forall j :: 0 <= j < k ==> IsRoot(roots[j])
      invariant forall p :: p in containers <==> IsContainer(Roots(roots[..k]), p)
    {
      if !IsRoot(roots[k]) {
        return None;
      }
      ghost var was := containers;
      containers := ContainersOf(roots[k], containers);
      RootsPush(roots, k);
      k := k + 1;
    }
    assert roots[..k] == roots;
    r := Some(containers);
  }

  function Roots(roots: seq<Path>): (r: set<Path>)
    ensures forall root :: root in r <==> root in roots
  {
    set root | root in roots
  }

  lemma RootsPush(roots: seq<Path>, k: nat)
    requires k < |roots|
    ensures Roots(roots[..k + 1]) == Roots(roots[..k]) + {roots[k]}
  {
  }

  // ---- The ownership check ----

  predicate Bundled(path: Path) {
    path != [] && path[0] == MODULES
  }

  /** Every bundled entry is a container and a directory, or belongs to a package. */
  ghost predicate Owned(m: Manifest, roots: set<Path>) {
    forall p :: p in m && Bundled(p) ==>
      if IsContainer(roots, p) then m[p].kind.Directory? else exists root :: root in roots && Belongs(p, root)
  }

  /** The first of the roots, in order, that a path extends. */
  function FirstOwner(path: Path, roots: seq<Path>): (r: Option<Path>)
    ensures r.Some? ==> r.value in roots && Extends(path, r.value)
    ensures r.None? ==> forall root :: root in roots ==> !Extends(path, root)
  {
    if roots == [] then None
    else if Extends(path, roots[0]) then Some(roots[0])
    else FirstOwner(path, roots[1..])
  }

  /** The length of a path's text, with a slash after each segment. */
  function TextLength(path: Path): nat {
    if path == [] then 0 else TextLength(path[..|path| - 1]) + |path[|path| - 1]| + 1
  }

  lemma {:induction false} ExtensionIsLonger(path: Path, root: Path)
    requires Extends(path, root)
    ensures TextLength(path) > TextLength(root)
  {
    var front := path[..|path| - 1];
    if |front| > |root| {
      assert front[..|root|] == root;
      ExtensionIsLonger(front, root);
    } else {
      assert front == root;
    }
  }

  ghost predicate LongestFirst(roots: seq<Path>) {
    forall i, j :: 0 <= i < j < |roots| ==> TextLength(roots[i]) >= TextLength(roots[j])
  }

  function Place(root: Path, sorted: seq<Path>): (r: seq<Path>)
    ensures forall q :: q in r <==> q == root || q in sorted
  {
    if sorted == [] || TextLength(sorted[0]) <= TextLength(root) then [root] + sorted
    else [sorted[0]] + Place(root, sorted[1..])
  }

  lemma {:induction false} PlaceSorts(root: Path, sorted: seq<Path>)
    requires LongestFirst(sorted)
    ensures LongestFirst(Place(root, sorted))
  {
    hide TextLength;
    if sorted != [] && TextLength(sorted[0]) > TextLength(root) {
      var rest := Place(root, sorted[1..]);
      PlaceSorts(root, sorted[1..]);
      forall q | q in rest ensures TextLength(q) <= TextLength(sorted[0]) {
        assert q == root || q in sorted[1..];
      }
    }
  }

  /** The roots without repetition, longest first. */
  function SortRoots(roots: seq<Path>): (r: seq<Path>)
    ensures forall root :: root in r <==> root in roots
  {
    if roots == [] then []
    else
      var rest := SortRoots(roots[1..]);
      if roots[0] in rest then rest else Place(roots[0], rest)
  }

  lemma {:induction false} SortRootsSorts(roots: seq<Path>)
    ensures LongestFirst(SortRoots(roots))
  {
    if roots != [] {
      SortRootsSorts(roots[1..]);
      PlaceSorts(roots[0], SortRoots(roots[1..]));
    }
  }

  lemma {:induction false} FirstOwnerIsLongest(path: Path, roots: seq<Path>, root: Path)
    requires LongestFirst(roots) && root in roots && Extends(path, root)
    ensures TextLength(FirstOwner(path, roots).value) >= TextLength(root)
  {
    hide TextLength, Extends;
    if !Extends(path, roots[0]) {
      FirstOwnerIsLongest(path, roots[1..], root);
    } else {
      var j :| 0 <= j < |roots| && roots[j] == root;
    }
  }

  /** With the longest roots first, the first owner owns an entry when any package does. */
  lemma FirstOwnerDecides(path: Path, roots: seq<Path>)
    requires LongestFirst(roots) && forall root :: root in roots ==> IsRoot(root)
    ensures (exists root :: root in roots && Belongs(path, root))
            <==> FirstOwner(path, roots).Some? && Belongs(path, FirstOwner(path, roots).value)
  {
    hide IsChain, FirstOwner, TextLength, LongestFirst;
    if root :| root in roots && Belongs(path, root) {
      FirstOwnerIsLongest(path, roots, root);
      var owner := FirstOwner(path, roots).value;
      if |owner| > |root| {
        assert root == path[..|root|] == owner[..|root|];
        assert owner[|root|] == path[|root|];
        NestedThroughModules(owner, root);
      } else if |owner| < |root| {
        assert owner == path[..|owner|] == root[..|owner|];
        ExtensionIsLonger(root, owner);
      } else {
        assert owner == path[..|owner|] == root;
      }
    }
  }

  /** assertBundledManifestOwnership accepts exactly the manifests in which every bundled entry
      is a container and a directory, or belongs to some package. */
  method BundledManifestOwnership(m: Manifest, packageRoots: seq<Path>) returns (ok: bool)
    ensures ok <==> (forall root :: root in packageRoots ==> IsRoot(root)) && Owned(m, Roots(packageRoots))
  {
    hide IsContainer, Belongs, IsRoot, LongestFirst;
    var roots := SortRoots(packageRoots);
    SortRootsSorts(packageRoots);
    assert Roots(roots) == Roots(packageRoots);
    var containers := BundledPackageContainerPaths(roots);
    if containers.None? {
      return false;
    }
    var todo := m.Keys;
    while todo != {}
      invariant todo <= m.Keys
      invariant forall p :: p in m.Keys - todo && Bundled(p) ==>
        if IsContainer(Roots(roots), p) then m[p].kind.Directory? else exists root :: root in Roots(roots) && Belongs(p, root)
      decreases |todo|
    {
      var path :| path in todo;
      FirstOwnerDecides(path, roots);
      if Bundled(path) {
        if path in containers.value {
          if !m[path].kind.Directory? {
            return false;
          }
        } else {
          var owner := FirstOwner(path, roots);
          if owner.None? || !Belongs(path, owner.value) {
            return false;
          }
        }
      }
      todo := todo - {path};
    }
    ok := true;
  }

  // ---- The registry comparison ----

  /** The entries of a manifest that belong to `root`, by their path below it. */
  ghost predicate SameSubtree(m: Manifest, root: Path, registry: Manifest) {
    && (forall p :: p in m && Belongs(p, root) ==> p[|root|..] in registry && registry[p[|root|..]] == m[p])
    && (forall q :: q in registry && q != [] && q[0] != MODULES ==> root + q in m && m[root + q] == registry[q])
  }

  /** Some entry of the registry package is its own. */
  ghost predicate NonEmpty(registry: Manifest) {
    exists q :: q in registry && q != [] && q[0] != MODULES
  }

  /** Every proper prefix of an entry is there, as a directory; directories have no content. */
  ghost predicate IsTree(m: Manifest) {
    && (forall p, i :: p in m && 0 < i < |p| ==> p[..i] in m && m[p[..i]].kind.Directory?)
    && (forall p :: p in m && m[p].kind.Directory? ==> m[p].content == [])
  }

  /** A bundled tree that the release verifier accepts for a closure. */
  ghost predicate Accepted(m: Manifest, roots: set<Path>, registry: map<Path, Manifest>) {
    && IsTree(m) && Owned(m, roots)
    && forall root :: root in roots ==> root in registry && SameSubtree(m, root, registry[root])
  }

  /** A root of a non-empty package, and every container around it, is in an accepted tree. */
  lemma ContainersPresent(m: Manifest, roots: set<Path>, registry: map<Path, Manifest>, path: Path)
    requires Accepted(m, roots, registry) && IsContainer(roots, path)
    requires roots != {} && forall root :: root in roots ==> IsRoot(root) && NonEmpty(registry[root])
    ensures path in m && m[path].kind.Directory? && m[path].content == []
  {
    var root, n := ContainerOfRoot(roots, path);
    var q :| q in registry[root] && q != [] && q[0] != MODULES;
    assert root + q in m;
    assert (root + q)[..n] == path;
  }

  /** A container is a prefix of some root. */
  lemma ContainerOfRoot(roots: set<Path>, path: Path) returns (root: Path, n: nat)
    requires IsContainer(roots, path) && roots != {} && forall root :: root in roots ==> IsRoot(root)
    ensures root in roots && 0 < n <= |root| && root[..n] == path
  {
    if path in roots {
      root, n := path, |path|;
    } else if path == [MODULES] {
      root :| root in roots;
      n := 1;
      assert root[0] == MODULES;
    } else {
      var i: int;
      root, i :| root in roots && 0 <= i < |root| && root[i] == MODULES && ContainerAt(root, i, path);
      n := if path == root[..i + 1] then i + 1 else i + 2;
    }
  }

  /** The lock determines the bundled tree: two accepted trees for the same non-empty packages
      have the same bundled paths, with the same entries, except that container directories
      may differ in their modes. */
  lemma DeterminedByLock(m: Manifest, n: Manifest, roots: set<Path>, registry: map<Path, Manifest>, path: Path)
    requires Accepted(m, roots, registry) && Accepted(n, roots, registry)
    requires roots != {} && forall root :: root in roots ==> IsRoot(root) && NonEmpty(registry[root])
    requires path in m && Bundled(path)
    ensures path in n
    ensures if IsContainer(roots, path) then m[path] == n[path].(mode := m[path].mode) else m[path] == n[path]
  {
    hide IsContainer, IsRoot, IsTree;
    if IsContainer(roots, path) {
      ContainersPresent(m, roots, registry, path);
      ContainersPresent(n, roots, registry, path);
    } else {
      var root :| root in roots && Belongs(path, root);
      assert path == root + path[|root|..];
    }
  }

  /** Each bundled entry of an accepted tree is a container or belongs to exactly one package. */
  lemma OwnedByOne(m: Manifest, roots: set<Path>, path: Path) returns (owner: Path)
    requires Owned(m, roots) && (forall root :: root in roots ==> IsRoot(root))
    requires path in m && Bundled(path) && !IsContainer(roots, path)
    ensures owner in roots && forall root :: root in roots ==> (Belongs(path, root) <==> root == owner)
  {
    owner :| owner in roots && Belongs(path, owner);
    forall root | root in roots && Belongs(path, root) ensures root == owner {
      OwnerIsUnique(path, root, owner);
    }
  }

  /** With an empty closure, an accepted tree bundles at most the node_modules directory itself. */
  lemma EmptyClosure(m: Manifest, registry: map<Path, Manifest>, path: Path)
    requires Accepted(m, {}, registry) && path in m && Bundled(path)
    ensures path == [MODULES] && m[path].kind.Directory?
  {
  }
}
