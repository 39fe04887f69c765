/** The manifest of a release source tree: a recursive walk by sorted names, under root rules
    that name what is included, what is skipped and what is refused. */
module SourceFingerprint {
  import opened Bytes
  import opened Options
  import opened Order

  type Name = seq<Byte>

  /** A directory's children come in the order the file system lists them. */
  datatype Tree = File(executable: bool, content: seq<Byte>) | Directory(children: seq<Child>) | Symlink | Special

  datatype Child = Child(name: Name, node: Tree)

  /** The content stands for its digest and size; the path is kept as its segments. */
  datatype Item = Item(path: seq<Name>, executable: bool, content: seq<Byte>)

  // ---- Names of the root ----

  predicate HasLineBreak(s: seq<Byte>) {
    || 0x0a in s || 0x0d in s
    || exists i :: 0 <= i < |s| - 2 && s[i] == 0xe2 && s[i + 1] == 0x80 && s[i + 2] in {0xa8, 0xa9}
  }

  predicate StartsWith(s: seq<Byte>, prefix: seq<Byte>) {
    |s| >= |prefix| && s[..|prefix|] == prefix
  }

  predicate EndsWith(s: seq<Byte>, suffix: seq<Byte>) {
    |s| >= |suffix| && s[|s| - |suffix|..] == suffix
  }

  function Ascii(text: string): (s: seq<Byte>)
    ensures |s| == |text|
  {
    seq(|text|, i requires 0 <= i < |text| => text[i] as int % 128)
  }

  /** prefix.*suffix, where the dots match no line break. */
  predicate Between(name: Name, prefix: seq<Byte>, suffix: seq<Byte>) {
    && |name| >= |prefix| + |suffix| && StartsWith(name, prefix) && EndsWith(name, suffix)
    && !HasLineBreak(name[|prefix|..|name| - |suffix|])
  }

  /** Bytes of the first character when that character is a line separator, otherwise 1. */
  function FirstCharacter(name: Name): nat {
    if |name| >= 3 && HasLineBreak(name[..3]) && name[0] == 0xe2 then 3 else 1
  }

  predicate IsIncludedRootFile(name: Name) {
    || name in {Ascii("cpb"), Ascii(".editorconfig"), Ascii(".gitattributes"), Ascii(".gitignore"), Ascii(".npmignore"), Ascii("NOTICE")}
    || Between(name, Ascii("LICENSE"), [])
    || Between(name, Ascii("package"), Ascii(".json"))
    || Between(name, Ascii("tsconfig"), Ascii(".json"))
    || Between(name, Ascii("codepatchbay-"), Ascii(".json"))
    || (name != [] && name[0] != 0x2e && FirstCharacter(name) <= |name| && Between(name[FirstCharacter(name)..], [], Ascii(".md")))
  }

  predicate IsIncludedDirectory(name: Name) {
    name in {
      Ascii(".github"), Ascii("assets"), Ascii("bridges"), Ascii("cli"), Ascii("core"), Ascii("cpb-test"), Ascii("docs"),
      Ascii("profiles"), Ascii("providers"), Ascii("runtime"), Ascii("schemas"), Ascii("scripts"), Ascii("server"),
      Ascii("shared"), Ascii("skills"), Ascii("templates"), Ascii("tests"), Ascii("wiki")
    }
  }

  predicate IsDeniedRootName(name: Name) {
    || name in {
         Ascii(".agents"), Ascii(".antigravitycli"), Ascii(".beads"), Ascii(".claude"), Ascii(".codegraph"), Ascii(".codex"),
         Ascii(".git"), Ascii(".omc"), Ascii(".omx"), Ascii(".test-tmp"), Ascii("artifacts"), Ascii("coverage"),
         Ascii("cpb-task"), Ascii("dist"), Ascii("dist-tests"), Ascii("flow-task"), Ascii("hyperframes-video"), Ascii("logs"),
         Ascii("marketing"), Ascii("node_modules"), Ascii("release-evidence"), Ascii("undefined")
       }
    || StartsWith(name, Ascii(".tmp-"))
  }

  const DS_STORE: Name := [0x2e, 0x44, 0x53, 0x5f, 0x53, 0x74, 0x6f, 0x72, 0x65]

  // ---- Directories ----

  function Names(children: seq<Child>): (names: seq<Name>)
    ensures |names| == |children| && forall i :: 0 <= i < |names| ==> names[i] == children[i].name
  {
    seq(|children|, i requires 0 <= i < |children| => children[i].name)
  }

  /** The entry of a given name. */
  function Get(children: seq<Child>, name: Name): (node: Tree)
    requires name in Names(children)
    ensures exists i :: 0 <= i < |children| && children[i] == Child(name, node)
  {
    if children[0].name == name then children[0].node
    else
      assert name in Names(children[1..]) by {
        var i :| 0 <= i < |children| && Names(children)[i] == name;
        assert Names(children[1..])[i - 1] == name;
      }
      Get(children[1..], name)
  }

  /** What a file system gives: distinct names, none empty, none with a slash. */
  predicate WellFormed(children: seq<Child>) {
    && (forall i, j :: 0 <= i < j < |children| ==> children[i].name != children[j].name)
    && (forall i :: 0 <= i < |children| ==> children[i].name != [] && SLASH !in children[i].name)
    && (forall i :: 0 <= i < |children| && children[i].node.Directory? ==> WellFormed(children[i].node.children))
  }

  /** The names in byte order. */
  function SortedNames(children: seq<Child>): (names: seq<Name>)
    ensures forall n :: n in names <==> n in Names(children)
  {
    var names: seq<Text> := Sort(Names(children));
    assert forall i :: 0 <= i < |names| ==> names[i] in names && names[i] in Names(children);
    assert forall i, j :: 0 <= i < |names| && 0 <= j < |names[i]| ==> 0 <= names[i][j] < 256;
    names
  }

  // ---- The walk ----

  function Visit(node: Tree, path: seq<Name>): Option<seq<Item>>
    decreases node, 0
  {
    match node
    case File(executable, content) => Some([Item(path, executable, content)])
    case Directory(children) => Walk(children, SortedNames(children), path)
    case Symlink => None
    case Special => None
  }

  /** collectIncludedTree, over the names that are left. */
  function Walk(children: seq<Child>, names: seq<Name>, path: seq<Name>): Option<seq<Item>>
    requires forall n :: n in names ==> n in Names(children)
    decreases children, |names|
  {
    if names == [] then Some([])
    else
      var first := Visit(Get(children, names[0]), path + [names[0]]);
      var rest := Walk(children, names[1..], path);
      if first.None? || rest.None? then None else Some(first.value + rest.value)
  }

  /** One entry of the root: skipped, refused, or walked. */
  function VisitRoot(name: Name, node: Tree): Option<seq<Item>> {
    if IsDeniedRootName(name) then Some([])
    else if name == DS_STORE then None
    else if IsIncludedDirectory(name) then (if node.Directory? then Visit(node, [name]) else None)
    else if IsIncludedRootFile(name) then (if node.File? then Visit(node, [name]) else None)
    else None
  }

  function WalkRoot(children: seq<Child>, names: seq<Name>): Option<seq<Item>>
    requires forall n :: n in names ==> n in Names(children)
  {
    if names == [] then Some([])
    else
      var first := VisitRoot(names[0], Get(children, names[0]));
      var rest := WalkRoot(children, names[1..]);
      if first.None? || rest.None? then None else Some(first.value + rest.value)
  }

  // ---- Paths as text ----

  /** The segments with slashes between them. */
  function Key(path: seq<Name>): seq<Byte> {
    if path == [] then [] else if |path| == 1 then path[0] else path[0] + [SLASH] + Key(path[1..])
  }

  predicate ValidPath(path: seq<Name>) {
    path != [] && forall i :: 0 <= i < |path| ==> path[i] != [] && SLASH !in path[i]
  }

  lemma {:induction false} KeyIsInjective(p: seq<Name>, q: seq<Name>)
    requires ValidPath(p) && ValidPath(q) && Key(p) == Key(q)
    ensures p == q
    decreases |p|
  {
    FirstSegment(p);
    FirstSegment(q);
    assert p[0] == Key(p)[..|p[0]|] && q[0] == Key(q)[..|q[0]|];
    if |p| > 1 && |q| > 1 {
      assert Key(p)[|p[0]| + 1..] == Key(p[1..]) && Key(q)[|q[0]| + 1..] == Key(q[1..]);
      KeyIsInjective(p[1..], q[1..]);
      assert p == [p[0]] + p[1..] && q == [q[0]] + q[1..];
    } else {
      assert p == [p[0]] && q == [q[0]];
    }
  }

  lemma FirstSegment(p: seq<Name>)
    requires ValidPath(p)
    ensures Find(Key(p), SLASH) == |p[0]| && (|Key(p)| == |p[0]| <==> |p| == 1)
  {
    FindAt(Key(p), SLASH, |p[0]|);
  }

  // ---- Sorting items ----

  function InsertItem(x: Item, sorted: seq<Item>): (r: seq<Item>)
    ensures forall y :: y in r <==> y == x || y in sorted
  {
    if sorted == [] || Less(Key(x.path), Key(sorted[0].path)) then [x] + sorted
    else [sorted[0]] + InsertItem(x, sorted[1..])
  }

  function SortItems(items: seq<Item>): (r: seq<Item>)
    ensures forall y :: y in r <==> y in items
  {
    if items == [] then [] else InsertItem(items[0], SortItems(items[1..]))
  }

  function ItemKeys(items: seq<Item>): (keys: seq<seq<Byte>>)
    ensures |keys| == |items| && forall i :: 0 <= i < |keys| ==> keys[i] == Key(items[i].path)
  {
    seq(|items|, i requires 0 <= i < |items| => Key(items[i].path))
  }

  ghost predicate DistinctKeys(items: seq<Item>) {
    forall i, j :: 0 <= i < j < |items| ==> Key(items[i].path) != Key(items[j].path)
  }

  lemma IncreasingCons(x: Item, rest: seq<Item>)
    requires Increasing(ItemKeys(rest)) && forall y :: y in rest ==> Less(Key(x.path), Key(y.path))
    ensures Increasing(ItemKeys([x] + rest))
  {
    hide Less, Key;
    assert forall i :: 0 <= i < |rest| ==> rest[i] in rest;
  }

  lemma {:induction false} InsertItemSorts(x: Item, sorted: seq<Item>)
    requires Increasing(ItemKeys(sorted)) && forall y :: y in sorted ==> Key(y.path) != Key(x.path)
    ensures Increasing(ItemKeys(InsertItem(x, sorted)))
  {
    hide Less, Key;
    if sorted != [] && !Less(Key(x.path), Key(sorted[0].path)) {
      var rest := InsertItem(x, sorted[1..]);
      Total(Key(x.path), Key(sorted[0].path));
      assert Increasing(ItemKeys(sorted[1..]));
      InsertItemSorts(x, sorted[1..]);
      forall y | y in rest ensures Less(Key(sorted[0].path), Key(y.path)) {
        LessThanRest(sorted, y);
      }
      IncreasingCons(sorted[0], rest);
    } else {
      forall y | y in sorted ensures Less(Key(x.path), Key(y.path)) {
        LessThanRest(sorted, y);
        if y != sorted[0] { Transitive(Key(x.path), Key(sorted[0].path), Key(y.path)); }
      }
      IncreasingCons(x, sorted);
    }
  }

  lemma LessThanRest(sorted: seq<Item>, y: Item)
    requires Increasing(ItemKeys(sorted)) && sorted != []
    ensures y in sorted ==> y == sorted[0] || Less(Key(sorted[0].path), Key(y.path))
    ensures y in sorted[1..] ==> Less(Key(sorted[0].path), Key(y.path))
  {
    hide Less, Key;
    if y in sorted[1..] {
      var i :| 0 <= i < |sorted[1..]| && sorted[1..][i] == y;
      assert sorted[i + 1] == y;
      assert Less(ItemKeys(sorted)[0], ItemKeys(sorted)[i + 1]);
    }
    assert sorted == [sorted[0]] + sorted[1..];
  }

  lemma {:induction false} SortItemsSorts(items: seq<Item>)
    requires DistinctKeys(items)
    ensures Increasing(ItemKeys(SortItems(items)))
  {
    hide Key;
    if items != [] {
      SortItemsSorts(items[1..]);
      InsertItemSorts(items[0], SortItems(items[1..]));
    }
  }

  /** Sorted manifests with the same items are the same manifest. */
  lemma SameItemsSameManifest(s: seq<Item>, t: seq<Item>)
    requires Increasing(ItemKeys(s)) && Increasing(ItemKeys(t)) && forall x :: x in s <==> x in t
    ensures s == t
  {
    hide Less, Key;
    forall k ensures k in ItemKeys(s) <==> k in ItemKeys(t) {
      if k in ItemKeys(s) {
        var i :| 0 <= i < |s| && ItemKeys(s)[i] == k;
        assert s[i] in t;
      }
      if k in ItemKeys(t) {
        var i :| 0 <= i < |t| && ItemKeys(t)[i] == k;
        assert t[i] in s;
      }
    }
    IncreasingIsUnique(ItemKeys(s), ItemKeys(t));
    forall i | 0 <= i < |s| ensures s[i] == t[i] {
      assert s[i] in t;
      var j :| 0 <= j < |t| && t[j] == s[i];
      Irreflexive(ItemKeys(t)[i]);
      assert ItemKeys(t)[j] == ItemKeys(t)[i];
    }
  }

  /** The manifest's items, or None when the scan refuses the tree. */
  function Manifest(root: seq<Child>): Option<seq<Item>> {
    var items := WalkRoot(root, SortedNames(root));
    if items.None? then None else Some(SortItems(items.value))
  }

  // ---- What a manifest holds ----

  /** A regular file lies at a path below a directory. */
  predicate FileAt(children: seq<Child>, path: seq<Name>, executable: bool, content: seq<Byte>)
    decreases |path|
  {
    && path != [] && path[0] in Names(children)
    && var node := Get(children, path[0]);
       if |path| == 1 then node == File(executable, content)
       else node.Directory? && FileAt(node.children, path[1..], executable, content)
  }

  /** No symbolic link and no special file, at any depth. */
  predicate Clean(node: Tree) {
    match node
    case File(_, _) => true
    case Directory(children) => forall i :: 0 <= i < |children| ==> Clean(children[i].node)
    case Symlink => false
    case Special => false
  }

  predicate AcceptsEntry(name: Name, node: Tree) {
    || IsDeniedRootName(name)
    || (name != DS_STORE
        && if IsIncludedDirectory(name) then node.Directory? && Clean(node) else IsIncludedRootFile(name) && node.File?)
  }

  /** Every root entry is skipped, or is an included directory or file of the right kind. */
  predicate AcceptsRoot(root: seq<Child>) {
    forall i :: 0 <= i < |root| ==> AcceptsEntry(root[i].name, root[i].node)
  }

  predicate Under(x: Item, path: seq<Name>) {
    |x.path| > |path| && x.path[..|path|] == path
  }

  /** What Visit lists for a node at a path. */
  predicate Lists(node: Tree, path: seq<Name>, x: Item) {
    match node
    case File(executable, content) => x == Item(path, executable, content)
    case Directory(children) => Under(x, path) && FileAt(children, x.path[|path|..], x.executable, x.content)
    case _ => false
  }

  /** What Walk lists for the names that are left. */
  predicate ListsNames(children: seq<Child>, names: seq<Name>, path: seq<Name>, x: Item) {
    Under(x, path) && x.path[|path|] in names && FileAt(children, x.path[|path|..], x.executable, x.content)
  }

  lemma ListsOneName(children: seq<Child>, name: Name, path: seq<Name>, x: Item)
    requires name in Names(children)
    ensures Lists(Get(children, name), path + [name], x) <==> ListsNames(children, [name], path, x)
  {
    var deeper := path + [name];
    if Under(x, path) && x.path[|path|] == name {
      assert x.path == path + [name] + x.path[|deeper|..];
      assert x.path[|path|..] == [name] + x.path[|deeper|..];
      assert x.path[|path|..][1..] == x.path[|deeper|..];
    }
  }

  lemma {:induction false} VisitLists(node: Tree, path: seq<Name>)
    requires node.Directory? ==> WellFormed(node.children)
    ensures Visit(node, path).Some? <==> Clean(node)
    ensures Visit(node, path).Some? ==> forall x :: x in Visit(node, path).value <==> Lists(node, path, x)
    decreases node, 0
  {
    hide FileAt, SortedNames, WellFormed;
    if node.Directory? {
      var children := node.children;
      WalkLists(children, SortedNames(children), path);
      forall x ensures Lists(node, path, x) <==> ListsNames(children, SortedNames(children), path, x) {
        NameOfFile(children, x.path[if |x.path| > |path| then |path| else |x.path|..], x.executable, x.content);
      }
      CleanByNames(children);
    }
  }

  lemma NameOfFile(children: seq<Child>, path: seq<Name>, executable: bool, content: seq<Byte>)
    ensures FileAt(children, path, executable, content) ==> path != [] && path[0] in Names(children)
  {
  }

  /** Distinct names: the entry found by name is the entry. */
  lemma GetAt(children: seq<Child>, i: nat)
    requires WellFormed(children) && i < |children|
    ensures children[i].name in Names(children) && Get(children, children[i].name) == children[i].node
  {
    var name := Names(children)[i];
    var j :| 0 <= j < |children| && children[j] == Child(name, Get(children, name));
  }

  lemma CleanByNames(children: seq<Child>)
    requires WellFormed(children)
    ensures (forall n :: n in Names(children) ==> Clean(Get(children, n))) <==> Clean(Directory(children))
  {
    hide WellFormed, Get;
    forall i | 0 <= i < |children| ensures children[i].name in Names(children) && Get(children, children[i].name) == children[i].node {
      GetAt(children, i);
    }
  }

  lemma SaneChild(children: seq<Child>, name: Name)
    requires WellFormed(children) && name in Names(children)
    ensures Get(children, name).Directory? ==> WellFormed(Get(children, name).children)
  {
    var i :| 0 <= i < |children| && Names(children)[i] == name;
    GetAt(children, i);
  }

  lemma {:induction false} WalkLists(children: seq<Child>, names: seq<Name>, path: seq<Name>)
    requires WellFormed(children)
    requires forall n :: n in names ==> n in Names(children)
    ensures Walk(children, names, path).Some? <==> forall n :: n in names ==> Clean(Get(children, n))
    ensures Walk(children, names, path).Some? ==> forall x :: x in Walk(children, names, path).value <==> ListsNames(children, names, path, x)
    decreases children, |names|
  {
    hide Clean, Lists, FileAt, Visit, Under, WellFormed, Get;
    if names != [] {
      SaneChild(children, names[0]);
      VisitLists(Get(children, names[0]), path + [names[0]]);
      WalkLists(children, names[1..], path);
      forall x ensures ListsNames(children, names, path, x)
                       <==> Lists(Get(children, names[0]), path + [names[0]], x) || ListsNames(children, names[1..], path, x) {
        ListsOneName(children, names[0], path, x);
      }
    }
  }

  // ---- Each file once ----

  ghost predicate DistinctPaths(items: seq<Item>) {
    forall i, j :: 0 <= i < j < |items| ==> items[i].path != items[j].path
  }

  lemma DistinctPathsJoin(a: seq<Item>, b: seq<Item>)
    requires DistinctPaths(a) && DistinctPaths(b) && forall x, y :: x in a && y in b ==> x.path != y.path
    ensures DistinctPaths(a + b)
  {
    forall i, j | 0 <= i < j < |a + b| ensures (a + b)[i].path != (a + b)[j].path {
      if i < |a| <= j {
        assert (a + b)[i] in a && (a + b)[j] in b;
      }
    }
  }

  lemma {:induction false} VisitOnce(node: Tree, path: seq<Name>)
    requires (node.Directory? ==> WellFormed(node.children)) && Visit(node, path).Some?
    ensures DistinctPaths(Visit(node, path).value)
    decreases node, 0
  {
    hide WellFormed;
    if node.Directory? {
      SortedNamesDistinct(node.children);
      WalkOnce(node.children, SortedNames(node.children), path);
    }
  }

  lemma SortedNamesDistinct(children: seq<Child>)
    requires WellFormed(children)
    ensures Distinct(SortedNames(children))
  {
    hide Less;
    SortIncreases(Names(children));
    var names := SortedNames(children);
    forall i, j | 0 <= i < j < |names| ensures names[i] != names[j] {
      Irreflexive(names[i]);
    }
  }

  lemma {:induction false} WalkOnce(children: seq<Child>, names: seq<Name>, path: seq<Name>)
    requires WellFormed(children) && Distinct(names) && forall n :: n in names ==> n in Names(children)
    requires Walk(children, names, path).Some?
    ensures DistinctPaths(Walk(children, names, path).value)
    decreases children, |names|
  {
    hide WellFormed, FileAt, Visit, Clean, Get, DistinctPaths;
    if names == [] {
      NoneTwice();
    } else {
      var node := Get(children, names[0]);
      var first := Visit(node, path + [names[0]]).value;
      var rest := Walk(children, names[1..], path).value;
      SaneChild(children, names[0]);
      VisitOnce(node, path + [names[0]]);
      WalkOnce(children, names[1..], path);
      VisitLists(node, path + [names[0]]);
      WalkLists(children, names[1..], path);
      forall x, y | x in first && y in rest ensures x.path != y.path {
        ListsOneName(children, names[0], path, x);
        assert y.path[|path|] in names[1..];
      }
      DistinctPathsJoin(first, rest);
    }
  }

  lemma NoneTwice()
    ensures DistinctPaths([])
  {
  }

  // ---- The root ----

  /** What WalkRoot lists for the names that are left. */
  predicate ListsRoot(root: seq<Child>, names: seq<Name>, x: Item) {
    x.path != [] && x.path[0] in names && !IsDeniedRootName(x.path[0]) && FileAt(root, x.path, x.executable, x.content)
  }

  lemma RootEntryLists(root: seq<Child>, name: Name)
    requires WellFormed(root) && name in Names(root)
    ensures VisitRoot(name, Get(root, name)).Some? <==> AcceptsEntry(name, Get(root, name))
    ensures VisitRoot(name, Get(root, name)).Some? ==>
              && DistinctPaths(VisitRoot(name, Get(root, name)).value)
              && forall x :: x in VisitRoot(name, Get(root, name)).value <==> ListsRoot(root, [name], x)
  {
    hide IsDeniedRootName, IsIncludedDirectory, IsIncludedRootFile, WellFormed, Get, FileAt, Clean;
    var node := Get(root, name);
    SaneChild(root, name);
    VisitLists(node, [name]);
    FileIsClean(node);
    if AcceptsEntry(name, node) && !IsDeniedRootName(name) {
      VisitOnce(node, [name]);
      forall x ensures Lists(node, [name], x) <==> ListsRoot(root, [name], x) {
        ListsOneName(root, name, [], x);
        assert [] + [name] == [name];
        assert x.path[0..] == x.path;
      }
    } else {
      NoneTwice();
    }
  }

  lemma FileIsClean(node: Tree)
    ensures node.File? ==> Clean(node)
  {
  }

  lemma {:induction false} WalkRootLists(root: seq<Child>, names: seq<Name>)
    requires WellFormed(root) && Distinct(names) && forall n :: n in names ==> n in Names(root)
    ensures WalkRoot(root, names).Some? <==> forall n :: n in names ==> AcceptsEntry(n, Get(root, n))
    ensures WalkRoot(root, names).Some? ==>
              && DistinctPaths(WalkRoot(root, names).value)
              && forall x :: x in WalkRoot(root, names).value <==> ListsRoot(root, names, x)
  {
    hide WellFormed, VisitRoot, AcceptsEntry, Get, FileAt, IsDeniedRootName, DistinctPaths;
    if names == [] {
      NoneTwice();
    } else {
      RootEntryLists(root, names[0]);
      WalkRootLists(root, names[1..]);
      if WalkRoot(root, names).Some? {
        DistinctPathsJoin(VisitRoot(names[0], Get(root, names[0])).value, WalkRoot(root, names[1..]).value);
      }
    }
  }

  lemma AcceptsByNames(root: seq<Child>)
    requires WellFormed(root)
    ensures (forall n :: n in Names(root) ==> AcceptsEntry(n, Get(root, n))) <==> AcceptsRoot(root)
  {
    hide WellFormed, Get, AcceptsEntry;
    forall i | 0 <= i < |root| ensures root[i].name in Names(root) && Get(root, root[i].name) == root[i].node {
      GetAt(root, i);
    }
  }

  lemma {:induction false} FilePathIsValid(children: seq<Child>, path: seq<Name>, executable: bool, content: seq<Byte>)
    requires WellFormed(children) && FileAt(children, path, executable, content)
    ensures ValidPath(path)
    decreases |path|
  {
    var i :| 0 <= i < |children| && Names(children)[i] == path[0];
    SaneChild(children, path[0]);
    if |path| > 1 {
      FilePathIsValid(Get(children, path[0]).children, path[1..], executable, content);
    }
  }

  // ---- Main results ----

  /** A scan is accepted exactly when every root entry may be there; then it lists every regular
      file outside the skipped names exactly once, in strictly increasing byte order of path. */
  lemma ManifestHolds(root: seq<Child>)
    requires WellFormed(root)
    ensures Manifest(root).Some? <==> AcceptsRoot(root)
    ensures Manifest(root).Some? ==>
              && Increasing(ItemKeys(Manifest(root).value))
              && forall x :: x in Manifest(root).value <==>
                   x.path != [] && !IsDeniedRootName(x.path[0]) && FileAt(root, x.path, x.executable, x.content)
  {
    hide WellFormed, Get, FileAt, AcceptsEntry, IsDeniedRootName, AcceptsRoot, WalkRoot, Key;
    SortedNamesDistinct(root);
    WalkRootLists(root, SortedNames(root));
    AcceptsByNames(root);
    if Manifest(root).Some? {
      var items := WalkRoot(root, SortedNames(root)).value;
      forall i, j | 0 <= i < j < |items| ensures Key(items[i].path) != Key(items[j].path) {
        assert items[i] in items && items[j] in items;
        FilePathIsValid(root, items[i].path, items[i].executable, items[i].content);
        FilePathIsValid(root, items[j].path, items[j].executable, items[j].content);
        if Key(items[i].path) == Key(items[j].path) {
          KeyIsInjective(items[i].path, items[j].path);
        }
      }
      SortItemsSorts(items);
      forall x: Item | FileAt(root, x.path, x.executable, x.content) ensures x.path != [] && x.path[0] in SortedNames(root) {
        NameOfFile(root, x.path, x.executable, x.content);
      }
    }
  }

  /** Two trees agree on every regular file that is not skipped: path, executable bit, content. */
  ghost predicate Agree(a: seq<Child>, b: seq<Child>) {
    forall path, executable, content :: path != [] && !IsDeniedRootName(path[0]) ==>
      (FileAt(a, path, executable, content) <==> FileAt(b, path, executable, content))
  }

  /** Two accepted trees have the same manifest exactly when they agree. */
  lemma ManifestDecides(a: seq<Child>, b: seq<Child>)
    requires WellFormed(a) && WellFormed(b) && AcceptsRoot(a) && AcceptsRoot(b)
    ensures Manifest(a) == Manifest(b) <==> Agree(a, b)
  {
    hide WellFormed, FileAt, AcceptsRoot, IsDeniedRootName, Manifest, Increasing;
    ManifestHolds(a);
    ManifestHolds(b);
    var s, t := Manifest(a).value, Manifest(b).value;
    if Agree(a, b) {
      SameItemsSameManifest(s, t);
    }
    if s == t {
      forall path, executable, content | path != [] && !IsDeniedRootName(path[0])
        ensures FileAt(a, path, executable, content) <==> FileAt(b, path, executable, content)
      {
        assert Item(path, executable, content) in s <==> Item(path, executable, content) in t;
      }
    }
  }

  /** The same directory listed in another order, at every level. */
  predicate SameListing(a: seq<Child>, b: seq<Child>) {
    && (forall i :: 0 <= i < |b| ==> b[i].name in Names(a))
    && (forall i :: 0 <= i < |a| ==> a[i].name in Names(b) && SameNode(a[i].node, Get(b, a[i].name)))
  }

  predicate SameNode(m: Tree, n: Tree) {
    match (m, n)
    case (Directory(a), Directory(b)) => SameListing(a, b)
    case _ => m == n
  }

  lemma SameNames(a: seq<Child>, b: seq<Child>, name: Name)
    requires WellFormed(a) && SameListing(a, b)
    ensures name in Names(a) <==> name in Names(b)
    ensures name in Names(a) ==> SameNode(Get(a, name), Get(b, name))
  {
    hide WellFormed, SameNode, Get;
    if name in Names(a) {
      var i :| 0 <= i < |a| && Names(a)[i] == name;
      GetAt(a, i);
    }
    if name in Names(b) {
      var i :| 0 <= i < |b| && Names(b)[i] == name;
    }
  }

  lemma {:induction false} SameFiles(a: seq<Child>, b: seq<Child>, path: seq<Name>, executable: bool, content: seq<Byte>)
    requires WellFormed(a) && WellFormed(b) && SameListing(a, b)
    ensures FileAt(a, path, executable, content) <==> FileAt(b, path, executable, content)
    decreases |path|
  {
    hide WellFormed, SameListing;
    if path != [] {
      SameNames(a, b, path[0]);
      if path[0] in Names(a) {
        SaneChild(a, path[0]);
        SaneChild(b, path[0]);
        var m, n := Get(a, path[0]), Get(b, path[0]);
        if |path| > 1 && m.Directory? && n.Directory? {
          SameFiles(m.children, n.children, path[1..], executable, content);
        }
      }
    }
  }

  lemma {:induction false} SameClean(m: Tree, n: Tree)
    requires SameNode(m, n) && (m.Directory? ==> WellFormed(m.children)) && (n.Directory? ==> WellFormed(n.children))
    ensures Clean(m) <==> Clean(n)
    decreases m
  {
    hide WellFormed, SameListing, Get;
    if m.Directory? {
      CleanByNames(m.children);
      CleanByNames(n.children);
      forall name ensures name in Names(m.children) <==> name in Names(n.children) {
        SameNames(m.children, n.children, name);
      }
      forall name | name in Names(m.children) ensures Clean(Get(m.children, name)) <==> Clean(Get(n.children, name)) {
        SameNames(m.children, n.children, name);
        SaneChild(m.children, name);
        SaneChild(n.children, name);
        var i :| 0 <= i < |m.children| && Names(m.children)[i] == name;
        GetAt(m.children, i);
        SameClean(Get(m.children, name), Get(n.children, name));
      }
    }
  }

  lemma SameAcceptance(a: seq<Child>, b: seq<Child>)
    requires WellFormed(a) && WellFormed(b) && SameListing(a, b)
    ensures AcceptsRoot(a) <==> AcceptsRoot(b)
  {
    hide WellFormed, SameListing, Get, IsDeniedRootName, IsIncludedDirectory, IsIncludedRootFile, Clean;
    AcceptsByNames(a);
    AcceptsByNames(b);
    forall name ensures name in Names(a) <==> name in Names(b) {
      SameNames(a, b, name);
    }
    forall name | name in Names(a) ensures AcceptsEntry(name, Get(a, name)) <==> AcceptsEntry(name, Get(b, name)) {
      SameNames(a, b, name);
      SaneChild(a, name);
      SaneChild(b, name);
      SameClean(Get(a, name), Get(b, name));
    }
  }

  /** The order in which directories are listed changes nothing: acceptance and manifest are the same. */
  lemma OrderFree(a: seq<Child>, b: seq<Child>)
    requires WellFormed(a) && WellFormed(b) && SameListing(a, b)
    ensures Manifest(a) == Manifest(b)
  {
    hide WellFormed, FileAt, AcceptsRoot, Manifest, SameListing, IsDeniedRootName;
    ManifestHolds(a);
    ManifestHolds(b);
    SameAcceptance(a, b);
    if AcceptsRoot(a) {
      forall path, executable, content
        ensures FileAt(a, path, executable, content) <==> FileAt(b, path, executable, content)
      {
        SameFiles(a, b, path, executable, content);
      }
      ManifestDecides(a, b);
    }
  }

  // ---- The scan ----

  lemma WalkEnds(children: seq<Child>, path: seq<Name>)
    ensures Walk(children, [], path) == Some([])
  {
  }

  lemma WalkStep(children: seq<Child>, names: seq<Name>, k: nat, path: seq<Name>)
    requires (forall n :: n in names ==> n in Names(children)) && k < |names|
    ensures var first, rest := Visit(Get(children, names[k]), path + [names[k]]), Walk(children, names[k + 1..], path);
            Walk(children, names[k..], path)
            == if first.None? || rest.None? then None else Some(first.value + rest.value)
  {
    hide Visit, Get;
    assert names[k..][1..] == names[k + 1..];
  }

  class Scan {
    var items: seq<Item>

    constructor ()
      ensures items == []
    {
      items := [];
    }

    /** One entry: a file is pushed, a directory collected, anything else refused. */
    method AddEntry(node: Tree, path: seq<Name>) returns (ok: bool)
      modifies this
      ensures ok <==> Visit(node, path).Some?
      ensures ok ==> items == old(items) + Visit(node, path).value
      decreases node, 0
    {
      hide Walk, SortedNames;
      match node {
        case File(executable, content) =>
          items := items + [Item(path, executable, content)];
          ok := true;
        case Directory(children) => ok := CollectIncludedTree(children, path);
        case _ => ok := false;
      }
    }

    /** collectIncludedTree: pushes the files of a directory, in walk order. */
    method CollectIncludedTree(children: seq<Child>, path: seq<Name>) returns (ok: bool)
      modifies this
      ensures ok <==> Walk(children, SortedNames(children), path).Some?
      ensures ok ==> items == old(items) + Walk(children, SortedNames(children), path).value
      decreases children, 1
    {
      hide Visit, Walk, SortedNames, Get;
      var names := SortedNames(children);
      ghost var whole := Walk(children, names, path);
      ghost var done: seq<Item> := [];
      var k := 0;
      assert names[0..] == names;
      assert whole.Some? ==> done + whole.value == whole.value;
      while k < |names|
        invariant 0 <= k <= |names|
        invariant items == old(items) + done
        invariant match Walk(children, names[k..], path)
                  case None => whole.None?
                  case Some(rest) => whole.Some? && whole.value == done + rest
      {
        var node := Get(children, names[k]);
        ghost var i :| 0 <= i < |children| && children[i] == Child(names[k], node);
        assert children[i].node == node;
        WalkStep(children, names, k, path);
        ok := AddEntry(node, path + [names[k]]);
        if !ok {
          return;
        }
        done := done + Visit(node, path + [names[k]]).value;
        k := k + 1;
      }
      assert names[k..] == [] && done + [] == done;
      WalkEnds(children, path);
      ok := true;
    }

    /** buildReleaseSourceFingerprint, up to the digest. */
    method Build(root: seq<Child>) returns (r: Option<seq<Item>>)
      requires items == []
      modifies this
      ensures r == Manifest(root)
    {
      hide SortedNames, Get, Visit, IsDeniedRootName, IsIncludedDirectory, IsIncludedRootFile;
      var names := SortedNames(root);
      ghost var whole := WalkRoot(root, names);
      var k := 0;
      assert names[0..] == names;
      while k < |names|
        invariant 0 <= k <= |names|
        invariant match WalkRoot(root, names[k..])
                  case None => whole.None?
                  case Some(rest) => whole.Some? && whole.value == items + rest
      {
        var name := names[k];
        var node := Get(root, name);
        assert names[k..][1..] == names[k + 1..];
        if !IsDeniedRootName(name) {
          if name == DS_STORE {
            return None;
          }
          if !(if IsIncludedDirectory(name) then node.Directory? else IsIncludedRootFile(name) && node.File?) {
            return None;
          }
          var good := AddEntry(node, [name]);
          if !good {
            return None;
          }
        }
        k := k + 1;
      }
      assert names[k..] == [] && items + [] == items;
      items := SortItems(items);
      r := Some(items);
    }
  }
}
