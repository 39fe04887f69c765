/** The production closure of a lock file: nearest-enclosing resolution, and the worklist that
    follows it from the direct dependencies. */
module ProductionClosure {
  import opened Bytes
  import opened Options
  import opened VersionRanges

  /** "/node_modules/" */
  const NESTED: Text := [0x2f, 0x6e, 0x6f, 0x64, 0x65, 0x5f, 0x6d, 0x6f, 0x64, 0x75, 0x6c, 0x65, 0x73, 0x2f]

  datatype Dependency = Dependency(name: Text, range: Text)

  /** A lock entry; `registry` says that its resolved and integrity fields are of the required
      registry and digest form. */
  datatype Locked = Locked(version: Text, registry: bool, dependencies: seq<Dependency>)

  type Lock = map<Text, Locked>

  datatype Edge = Edge(requester: Text, name: Text, range: Text)

  // ---- Resolution ----

  function Candidate(scope: Text, name: Text): Text {
    if scope == [] then NESTED[1..] + name else scope + NESTED + name
  }

  /** Where the last occurrence of NESTED in `path` starts. */
  function LastNested(path: Text): (r: Option<nat>)
    ensures r.Some? ==> r.value + |NESTED| <= |path| && path[r.value..r.value + |NESTED|] == NESTED
    decreases |path|
  {
    if |path| < |NESTED| then None
    else if path[|path| - |NESTED|..] == NESTED then Some(|path| - |NESTED|)
    else LastNested(path[..|path| - 1])
  }

  /** The package that `path` is nested in; the root is the empty path. */
  function Enclosing(path: Text): (r: Text)
    ensures path != [] ==> |r| < |path|
  {
    var marker := LastNested(path);
    if marker.None? then [] else path[..marker.value]
  }

  /** The scopes a requester looks in, innermost first. */
  function Scopes(requester: Text): (r: seq<Text>)
    ensures r != []
    decreases |requester|
  {
    if requester == [] then [[]] else [requester] + Scopes(Enclosing(requester))
  }

  /** The first scope that holds the name decides. */
  function Resolve(lock: Lock, requester: Text, name: Text): Option<Text>
    decreases |requester|
  {
    if Candidate(requester, name) in lock then Some(Candidate(requester, name))
    else if requester == [] then None
    else Resolve(lock, Enclosing(requester), name)
  }

  /** The scope at position i of a requester's is the first that holds the name. */
  ghost predicate FirstHolder(lock: Lock, scopes: seq<Text>, name: Text, i: nat) {
    i < |scopes| && Candidate(scopes[i], name) in lock && forall j :: 0 <= j < i ==> Candidate(scopes[j], name) !in lock
  }

  /** Resolution finds the innermost of the requester's scopes that has the package, and fails
      only when none has it. */
  lemma {:induction false} ResolvesToInnermost(lock: Lock, requester: Text, name: Text) returns (i: nat)
    ensures match Resolve(lock, requester, name)
            case None => forall scope :: scope in Scopes(requester) ==> Candidate(scope, name) !in lock
            case Some(p) => FirstHolder(lock, Scopes(requester), name, i) && p == Candidate(Scopes(requester)[i], name)
    decreases |requester|
  {
    hide Candidate, Enclosing;
    i := 0;
    if Candidate(requester, name) !in lock && requester != [] {
      i := ResolvesToInnermost(lock, Enclosing(requester), name);
      i := i + 1;
      assert Scopes(requester) == [requester] + Scopes(Enclosing(requester));
    }
  }

  method LockPackagePathForDependency(lock: Lock, requesterPath: Text, name: Text) returns (r: Option<Text>)
    ensures r == Resolve(lock, requesterPath, name)
    ensures r.Some? ==> r.value in lock
  {
    var current := requesterPath;
    while true
      invariant Resolve(lock, current, name) == Resolve(lock, requesterPath, name)
      decreases |current|
    {
      var candidate := Candidate(current, name);
      if candidate in lock {
        return Some(candidate);
      }
      if current == [] {
        return None;
      }
      current := Enclosing(current);
    }
  }

  // ---- Closed sets ----

  ghost predicate ResolvesInto(lock: Lock, requester: Text, d: Dependency, s: set<Text>) {
    var p := Resolve(lock, requester, d.name);
    p.Some? && p.value in s
  }

  /** A set of lock paths that holds the direct dependencies and what its members depend on. */
  ghost predicate Closed(lock: Lock, direct: seq<Dependency>, s: set<Text>) {
    && s <= lock.Keys
    && (forall d :: d in direct ==> ResolvesInto(lock, [], d, s))
    && (forall q, d :: q in s && d in lock[q].dependencies ==> ResolvesInto(lock, q, d, s))
  }

  /** The locked version lies in the range of the edge that needs it. */
  predicate EdgeHolds(lock: Lock, requester: Text, d: Dependency) {
    var p := Resolve(lock, requester, d.name);
    p.Some? && p.value in lock && Satisfies(lock[p.value].version, d.range)
  }

  predicate Provenance(locked: Locked) {
    locked.version != [] && locked.registry
  }

  /** A direct dependency is declared with the exact text of the locked version. */
  predicate Pinned(lock: Lock, d: Dependency) {
    Candidate([], d.name) in lock && lock[Candidate([], d.name)].version == d.range
  }

  /** What the release needs of the packages it bundles. */
  ghost predicate Sound(lock: Lock, direct: seq<Dependency>, s: set<Text>) {
    && s <= lock.Keys
    && (forall d :: d in direct ==> EdgeHolds(lock, [], d) && Pinned(lock, d))
    && (forall q, d :: q in s && d in lock[q].dependencies ==> EdgeHolds(lock, q, d))
    && (forall q :: q in s ==> Provenance(lock[q]))
  }

  ghost predicate DistinctNames(direct: seq<Dependency>) {
    forall i, j :: 0 <= i < j < |direct| ==> direct[i].name != direct[j].name
  }

  // ---- The worklist ----

  function Edges(requester: Text, dependencies: seq<Dependency>): (edges: seq<Edge>)
    ensures |edges| == |dependencies|
    ensures forall i :: 0 <= i < |edges| ==> edges[i] == Edge(requester, dependencies[i].name, dependencies[i].range)
  {
    seq(|dependencies|, i requires 0 <= i < |dependencies| => Edge(requester, dependencies[i].name, dependencies[i].range))
  }

  /** An edge is done when it holds and its target is in the closure. */
  ghost predicate Done(lock: Lock, requester: Text, d: Dependency, closure: set<Text>) {
    EdgeHolds(lock, requester, d) && ResolvesInto(lock, requester, d, closure)
  }

  ghost predicate Waits(pending: seq<Edge>, requester: Text, d: Dependency) {
    Edge(requester, d.name, d.range) in pending
  }

  /** Every closed set contains the closure, whose edges are done or wait. */
  ghost predicate Working(lock: Lock, direct: seq<Dependency>, closure: set<Text>, pending: seq<Edge>) {
    && closure <= lock.Keys && [] !in closure
    && (forall s :: Closed(lock, direct, s) ==> closure <= s)
    && (forall e :: e in pending ==> IsEdge(lock, direct, closure, e))
    && (forall d :: d in direct ==> Done(lock, [], d, closure) || Waits(pending, [], d))
    && (forall q, d :: q in closure && d in lock[q].dependencies ==> Done(lock, q, d, closure) || Waits(pending, q, d))
    && (forall q :: q in closure ==> Provenance(lock[q]))
  }

  predicate IsEdge(lock: Lock, direct: seq<Dependency>, closure: set<Text>, e: Edge) {
    if e.requester == [] then Dependency(e.name, e.range) in direct
    else e.requester in closure && e.requester in lock && Dependency(e.name, e.range) in lock[e.requester].dependencies
  }

  /** First in, first out: until the k direct dependencies taken so far are all of them, the
      rest stand first in the queue and the closure is exactly what those k resolve to. */
  ghost predicate InOrder(lock: Lock, direct: seq<Dependency>, closure: set<Text>, pending: seq<Edge>, k: nat) {
    && k <= |direct|
    && (forall i :: 0 <= i < k ==> Pinned(lock, direct[i]))
    && |direct| - k <= |pending| && pending[..|direct| - k] == Edges([], direct[k..])
    && (k < |direct| ==> forall q :: q in closure ==> exists i :: 0 <= i < k && q == Candidate([], direct[i].name))
  }

  /** An edge that waits leads, in every closed set, to what it resolves to. */
  lemma EdgeIsForced(lock: Lock, direct: seq<Dependency>, closure: set<Text>, pending: seq<Edge>, e: Edge, s: set<Text>)
    requires Working(lock, direct, closure, pending) && e in pending && Closed(lock, direct, s)
    ensures ResolvesInto(lock, e.requester, Dependency(e.name, e.range), s)
    ensures Sound(lock, direct, s) ==> EdgeHolds(lock, e.requester, Dependency(e.name, e.range))
    ensures Sound(lock, direct, s) && e.requester == [] ==> Pinned(lock, Dependency(e.name, e.range))
    ensures Sound(lock, direct, s) ==> forall p :: Resolve(lock, e.requester, e.name) == Some(p) ==> Provenance(lock[p])
  {
    hide Candidate, Resolve, Provenance, Satisfies;
    assert IsEdge(lock, direct, closure, e);
    assert closure <= s;
  }

  lemma {:induction false} ResolvedNotRoot(lock: Lock, requester: Text, name: Text)
    ensures Resolve(lock, requester, name).Some? ==> Resolve(lock, requester, name).value != []
    decreases |requester|
  {
    if Candidate(requester, name) !in lock && requester != [] {
      ResolvedNotRoot(lock, Enclosing(requester), name);
    }
  }

  /** The first edge waits no longer once it is done. */
  lemma TakesDone(lock: Lock, direct: seq<Dependency>, closure: set<Text>, pending: seq<Edge>)
    requires Working(lock, direct, closure, pending) && pending != []
    requires var e := pending[0]; Done(lock, e.requester, Dependency(e.name, e.range), closure)
    ensures Working(lock, direct, closure, pending[1..])
  {
    hide Closed, Done, Provenance;
    var e := pending[0];
    var d0 := Dependency(e.name, e.range);
    forall d | d in direct ensures Done(lock, [], d, closure) || Waits(pending[1..], [], d) {
      assert Edge([], d.name, d.range) == e ==> d == d0;
    }
    forall q, d | q in closure && d in lock[q].dependencies ensures Done(lock, q, d, closure) || Waits(pending[1..], q, d) {
      assert Edge(q, d.name, d.range) == e ==> d == d0 && q == e.requester;
    }
  }

  /** A package that every closed set contains joins the closure, and its edges the queue. */
  lemma TakesPackage(lock: Lock, direct: seq<Dependency>, closure: set<Text>, pending: seq<Edge>, p: Text)
    requires Working(lock, direct, closure, pending) && p in lock && p != [] && p !in closure && Provenance(lock[p])
    requires forall s :: Closed(lock, direct, s) ==> p in s
    ensures Working(lock, direct, closure + {p}, pending + Edges(p, lock[p].dependencies))
  {
    hide Closed, Provenance, EdgeHolds;
    var more := Edges(p, lock[p].dependencies);
    var grown := closure + {p};
    forall d | d in direct ensures Done(lock, [], d, grown) || Waits(pending + more, [], d) {
      assert Done(lock, [], d, closure) || Waits(pending, [], d);
    }
    forall q, d | q in grown && d in lock[q].dependencies ensures Done(lock, q, d, grown) || Waits(pending + more, q, d) {
      if q == p {
        var i :| 0 <= i < |lock[p].dependencies| && lock[p].dependencies[i] == d;
        assert more[i] == Edge(p, d.name, d.range);
      } else {
        assert Done(lock, q, d, closure) || Waits(pending, q, d);
      }
    }
  }

  lemma RootCandidatesDiffer(a: Text, b: Text)
    requires a != b
    ensures Candidate([], a) != Candidate([], b)
  {
    assert Candidate([], a)[|NESTED| - 1..] == a;
    assert Candidate([], b)[|NESTED| - 1..] == b;
  }

  lemma FinishedIsLeast(lock: Lock, direct: seq<Dependency>, closure: set<Text>)
    requires Working(lock, direct, closure, []) && forall d :: d in direct ==> Pinned(lock, d)
    ensures Closed(lock, direct, closure) && Sound(lock, direct, closure)
    ensures forall s :: Closed(lock, direct, s) ==> closure <= s
  {
    hide EdgeHolds, Provenance, Pinned, Resolve;
  }

  lemma DirectResolvesToCandidate(lock: Lock, name: Text)
    ensures Resolve(lock, [], name) == if Candidate([], name) in lock then Some(Candidate([], name)) else None
  {
  }

  /** While direct dependencies are left, the next one resolves to a package of its own. */
  lemma NextDirectIsNew(lock: Lock, direct: seq<Dependency>, closure: set<Text>, pending: seq<Edge>, k: nat)
    requires DistinctNames(direct) && InOrder(lock, direct, closure, pending, k) && k < |direct|
    ensures pending[0] == Edge([], direct[k].name, direct[k].range)
    ensures Candidate([], direct[k].name) !in closure
  {
    hide Candidate, Pinned;
    assert pending[0] == pending[..|direct| - k][0] == Edges([], direct[k..])[0];
    forall i | 0 <= i < k ensures Candidate([], direct[i].name) != Candidate([], direct[k].name) {
      RootCandidatesDiffer(direct[i].name, direct[k].name);
    }
  }

  /** The queue keeps its order when its first edge is taken. */
  lemma TakesInOrder(lock: Lock, direct: seq<Dependency>, closure: set<Text>, pending: seq<Edge>, more: seq<Edge>, k: nat)
    requires InOrder(lock, direct, closure, pending, k) && pending != []
    requires k < |direct| ==> Pinned(lock, direct[k])
    ensures var grown := if k < |direct| then closure + {Candidate([], direct[k].name)} else closure;
            InOrder(lock, direct, grown, (pending + more)[1..], if k < |direct| then k + 1 else k)
  {
    hide Candidate, Pinned;
    if k < |direct| {
      var rest := (pending + more)[1..];
      assert rest[..|direct| - (k + 1)] == pending[..|direct| - k][1..] == Edges([], direct[k..])[1..];
      assert direct[k + 1..] == direct[k..][1..];
      assert Edges([], direct[k..])[1..] == Edges([], direct[k + 1..]);
    } else {
      assert direct[k..] == [];
    }
  }

  /** What makes the worklist fail on an edge. */
  predicate Rejects(lock: Lock, closure: set<Text>, e: Edge) {
    var p := Resolve(lock, e.requester, e.name);
    || p.None? || p.value !in lock || !Satisfies(lock[p.value].version, e.range)
    || (p.value !in closure && (!Provenance(lock[p.value]) || (e.requester == [] && e.range != lock[p.value].version)))
  }

  lemma RejectionIsSound(lock: Lock, direct: seq<Dependency>, closure: set<Text>, pending: seq<Edge>, e: Edge, s: set<Text>)
    requires Working(lock, direct, closure, pending) && e in pending && Rejects(lock, closure, e)
    requires Closed(lock, direct, s)
    ensures !Sound(lock, direct, s)
  {
    hide Provenance, Satisfies, Sound, Closed, Candidate;
    EdgeIsForced(lock, direct, closure, pending, e, s);
    DirectResolvesToCandidate(lock, e.name);
  }

  /** An edge that is not rejected and whose target is in the closure is done. */
  lemma AcceptedIsDone(lock: Lock, closure: set<Text>, e: Edge)
    requires !Rejects(lock, closure, e)
    requires Resolve(lock, e.requester, e.name).value in closure
    ensures Done(lock, e.requester, Dependency(e.name, e.range), closure)
  {
  }

  /** One turn of the worklist's loop. */
  method TakeNext(lock: Lock, direct: seq<Dependency>, closure: set<Text>, pending: seq<Edge>)
    returns (ok: bool, grown: set<Text>, queue: seq<Edge>, ghost p: Text, ghost more: seq<Edge>)
    requires Working(lock, direct, closure, pending) && pending != []
    ensures !ok ==> Rejects(lock, closure, pending[0])
    ensures ok ==> Working(lock, direct, grown, queue) && !Rejects(lock, closure, pending[0])
                   && Resolve(lock, pending[0].requester, pending[0].name) == Some(p) && p in lock
                   && grown == closure + {p} && queue == (pending + more)[1..]
                   && (p in closure ==> more == [])
  {
    hide Working, Closed, Resolve, Candidate, Provenance, Satisfies;
    var next := pending[0];
    ok, grown, queue, p, more := false, closure, pending, [], [];
    var packagePath := LockPackagePathForDependency(lock, next.requester, next.name);
    if packagePath.None? {
      return;
    }
    p := packagePath.value;
    var locked := lock[packagePath.value];
    if !Satisfies(locked.version, next.range) {
      return;
    }
    if packagePath.value !in closure {
      if !Provenance(locked) || (next.requester == [] && next.range != locked.version) {
        return;
      }
      ResolvedNotRoot(lock, next.requester, next.name);
      forall s | Closed(lock, direct, s) ensures p in s {
        EdgeIsForced(lock, direct, closure, pending, next, s);
      }
      TakesPackage(lock, direct, closure, pending, p);
      more := Edges(p, locked.dependencies);
      queue := pending + Edges(packagePath.value, locked.dependencies);
      grown := closure + {packagePath.value};
    }
    AcceptedIsDone(lock, grown, next);
    TakesDone(lock, direct, grown, queue);
    assert pending + [] == pending;
    queue := queue[1..];
    ok := true;
  }

  lemma StartsWorking(lock: Lock, direct: seq<Dependency>)
    ensures Working(lock, direct, {}, Edges([], direct)) && InOrder(lock, direct, {}, Edges([], direct), 0)
  {
    hide Closed, Done;
    var edges := Edges([], direct);
    assert direct[0..] == direct && edges[..|direct|] == edges;
    forall d | d in direct ensures Waits(edges, [], d) {
      var i :| 0 <= i < |direct| && direct[i] == d;
      assert edges[i] == Edge([], d.name, d.range);
    }
  }

  /** The order is kept, and each direct dependency meets the exact pin. */
  lemma KeepsOrder(lock: Lock, direct: seq<Dependency>, closure: set<Text>, pending: seq<Edge>, more: seq<Edge>, k: nat, p: Text)
    requires DistinctNames(direct) && InOrder(lock, direct, closure, pending, k) && pending != []
    requires !Rejects(lock, closure, pending[0]) && Resolve(lock, pending[0].requester, pending[0].name) == Some(p)
    ensures InOrder(lock, direct, closure + {p}, (pending + more)[1..], if k < |direct| then k + 1 else k)
  {
    hide Candidate, Satisfies, Provenance, DistinctNames, Resolve;
    if k < |direct| {
      NextDirectIsNew(lock, direct, closure, pending, k);
      DirectResolvesToCandidate(lock, direct[k].name);
    }
    TakesInOrder(lock, direct, closure, pending, more, k);
  }

  lemma Shrinks(keys: set<Text>, closure: set<Text>, p: Text)
    requires p in keys
    ensures |keys - (closure + {p})| <= |keys - closure|
    ensures p !in closure ==> |keys - (closure + {p})| < |keys - closure|
  {
    assert keys - (closure + {p}) == (keys - closure) - {p};
  }

  /** The worklist of assertBundledProductionClosure. It accepts exactly when some closed set
      is sound, and returns the least closed set. */
  method CollectClosure(lock: Lock, direct: seq<Dependency>) returns (r: Option<set<Text>>)
    requires DistinctNames(direct)
    ensures r.Some? ==> Closed(lock, direct, r.value) && Sound(lock, direct, r.value)
    ensures r.Some? ==> forall s :: Closed(lock, direct, s) ==> r.value <= s
    ensures r.None? ==> forall s :: Closed(lock, direct, s) ==> !Sound(lock, direct, s)
  {
    hide Closed, Sound, Resolve, Candidate, Provenance, Satisfies, DistinctNames, Pinned;
    var closure: set<Text> := {};
    var pending := Edges([], direct);
    ghost var k := 0;
    StartsWorking(lock, direct);
    while pending != []
      invariant Working(lock, direct, closure, pending)
      invariant InOrder(lock, direct, closure, pending, k)
      decreases |lock.Keys - closure|, |pending|
    {
      ghost var next := pending[0];
      var ok, grown, queue, p, more := TakeNext(lock, direct, closure, pending);
      if !ok {
        forall s | Closed(lock, direct, s) ensures !Sound(lock, direct, s) {
          RejectionIsSound(lock, direct, closure, pending, next, s);
        }
        return None;
      }
      KeepsOrder(lock, direct, closure, pending, more, k, p);
      Shrinks(lock.Keys, closure, p);
      k := if k < |direct| then k + 1 else k;
      closure, pending := grown, queue;
    }
    FinishedIsLeast(lock, direct, closure);
    r := Some(closure);
  }
}
