/** "Isolate, then delete": the promotion script never removes a path it owns in place.
    It claims a private container directory, renames the owned entry into it, checks
    that what it moved is what it meant to remove, and only then deletes.  Other
    processes may replace entries between any two calls. */
module CleanupIsolation {
  import opened Options

  /** Public paths are the ones everybody knows; a container and the slots inside it
      carry unguessable names.  What lies inside a removed directory is part of it. */
  datatype Path =
    | Public(name: nat)
    | Container(id: nat)
    | Inside(container: nat, slot: nat)

  /** lstat's identity: the generation (inode and birth time) is unique; `stamp` stands
      for size and modification time, `ctime` also changes on rename. */
  datatype Identity = Identity(gen: nat, stamp: int, ctime: int)

  /** What a file holds, or the owner marker in a directory: something that cannot be read as
      JSON, a JSON value that is no owner marker (wrong generator or kind, or no complete
      identity), or an owner marker with a token and the identity it records. */
  datatype Form = Text | Value | Marker

  datatype Node = Node(identity: Identity, isDirectory: bool, form: Form, token: nat, records: Identity)

  /** validateOwnedFileMarker, verifyOwnerMarker */
  predicate Validates(node: Node, token: nat) {
    node.form.Marker? && node.token == token
  }

  /** A regular file that is read as JSON and then refused. */
  predicate Refused(node: Node, token: nat) {
    !node.isDirectory && !node.form.Text? && !Validates(node, token)
  }

  datatype Disk = Disk(entries: map<Path, Node>, nextGen: nat, nextName: nat)

  predicate SameFileIdentity(left: Identity, right: Identity) {
    left == right
  }

  predicate SameFileIncarnation(left: Identity, right: Identity) {
    left.gen == right.gen
  }

  predicate SameFileAfterRename(left: Identity, right: Identity) {
    left.gen == right.gen && left.stamp == right.stamp
  }

  predicate Named(p: Path, bound: nat) {
    match p
    case Public(_) => true
    case Container(id) => id < bound
    case Inside(id, slot) => id < bound && slot < bound
  }

  /** Generations are unique and below the next one to be handed out; so are names. */
  predicate Consistent(d: Disk) {
    && (forall p :: p in d.entries ==> d.entries[p].identity.gen < d.nextGen && Named(p, d.nextName))
    && (forall p, q ::
          (p in d.entries && q in d.entries && d.entries[p].identity.gen == d.entries[q].identity.gen) ==> p == q)
  }

  function Generations(d: Disk): set<nat> {
    set p | p in d.entries :: d.entries[p].identity.gen
  }

  /** Every generation that has ever existed and is now at no path. */
  function Lost(d: Disk): set<nat> {
    set g: nat | g < d.nextGen && g !in Generations(d)
  }

  predicate Same(d: Disk, e: Disk, p: Path) {
    (p in d.entries <==> p in e.entries) && (p in d.entries ==> d.entries[p] == e.entries[p])
  }

  /** What other processes may do: create, move, swap and modify entries at will, at any
      path outside `frozen`, as long as no generation disappears. */
  predicate Interference(d: Disk, e: Disk, frozen: set<Path>) {
    && Consistent(e)
    && d.nextGen <= e.nextGen && d.nextName <= e.nextName
    && Lost(e) == Lost(d)
    && (forall p :: p in frozen ==> Same(d, e, p))
  }

  lemma CreationLosesNothing(d: Disk, p: Path, node: Node)
    requires Consistent(d) && p !in d.entries && node.identity.gen == d.nextGen
    ensures Lost(Disk(d.entries[p := node], d.nextGen + 1, d.nextName)) == Lost(d)
  {
    var e := Disk(d.entries[p := node], d.nextGen + 1, d.nextName);
    assert forall q :: q in d.entries ==> e.entries[q] == d.entries[q];
    assert e.entries[p].identity.gen == d.nextGen;
    forall g: nat ensures g in Lost(e) <==> g in Lost(d) {
      if g in Generations(d) {
        var q :| q in d.entries && d.entries[q].identity.gen == g;
        assert q in e.entries;
      }
    }
  }

  lemma MoveLosesNothing(d: Disk, from: Path, to: Path, node: Node)
    requires Consistent(d) && from in d.entries && to !in d.entries
    requires node.identity.gen == d.entries[from].identity.gen
    ensures Lost(d.(entries := (d.entries - {from})[to := node])) == Lost(d)
  {
    var e := d.(entries := (d.entries - {from})[to := node]);
    forall g: nat ensures g in Generations(e) <==> g in Generations(d) {
      if g in Generations(d) {
        var q :| q in d.entries && d.entries[q].identity.gen == g;
        assert (if q == from then to else q) in e.entries;
      }
      if g in Generations(e) {
        var q :| q in e.entries && e.entries[q].identity.gen == g;
        assert (if q == to then from else q) in d.entries;
      }
    }
  }

  lemma RemovalLosesOne(d: Disk, p: Path)
    requires Consistent(d) && p in d.entries
    ensures Lost(d.(entries := d.entries - {p})) == Lost(d) + {d.entries[p].identity.gen}
  {
    var e := d.(entries := d.entries - {p});
    var gone := d.entries[p].identity.gen;
    forall g: nat ensures g in Generations(e) <==> g in Generations(d) && g != gone {
      if g in Generations(d) && g != gone {
        var q :| q in d.entries && d.entries[q].identity.gen == g;
        assert q in e.entries;
      }
    }
  }

  /** lstat: nothing there, an error, or what is there. */
  datatype Look = Absent | Failed | Found(node: Node)

  /** Why an error names no path: a marker was read and refused, a plain lstat found nothing,
      or a look that only asks failed itself. */
  datatype Reason = Invalid | Vanished | LookFailed

  datatype Outcome = Done | Preserved(recovery: set<Path>) | Unlisted(reason: Reason)

  /** The error of an absence test: it names `paths` unless the look failed. */
  function Refusal(looked: bool, paths: set<Path>): Outcome {
    if looked then Preserved(paths) else Unlisted(LookFailed)
  }

  /** The error of a plain lstat. */
  function Missed(look: Look): Outcome {
    Unlisted(if look.Absent? then Vanished else LookFailed)
  }

  /** readOwnedFileMarkerSnapshot: the marker, its refusal, or a read that failed. */
  datatype Reading = Read(node: Node) | Unfit | Unread

  datatype Isolation = Isolation(canonical: Path, id: nat, slot: nat, containerIdentity: Identity)
  {
    function ContainerPath(): Path { Container(id) }
    function IsolatedPath(): Path { Inside(id, slot) }
    function Everywhere(): set<Path> { {canonical, Container(id), Inside(id, slot)} }
  }

  datatype Claimed = Claimed(isolation: Isolation) | NotClaimed(outcome: Outcome)

  datatype Isolated = Isolated(isolation: Isolation, pinned: Identity) | NotIsolated(outcome: Outcome)

  /** More paths for the same error. */
  function With(outcome: Outcome, more: set<Path>): Outcome {
    if outcome.Preserved? then Preserved(outcome.recovery + more) else outcome
  }

  predicate At(d: Disk, p: Path, identity: Identity, isDirectory: bool) {
    p in d.entries && d.entries[p].identity == identity && d.entries[p].isDirectory == isDirectory
  }

  /** `e` is `d` with one fresh empty container. */
  ghost predicate Pristine(d: Disk, e: Disk, isolation: Isolation) {
    && At(e, isolation.ContainerPath(), isolation.containerIdentity, true)
    && e.entries - {isolation.ContainerPath()} == d.entries
    && forall slot :: Inside(isolation.id, slot) !in e.entries
  }

  /** `e` is `d` with the canonical entry moved into the slot of a fresh container. */
  ghost predicate SetAside(d: Disk, e: Disk, isolation: Isolation, pinned: Identity) {
    && isolation.canonical in d.entries && isolation.canonical !in e.entries
    && isolation.IsolatedPath() in e.entries && isolation.ContainerPath() !in d.entries
    && At(e, isolation.ContainerPath(), isolation.containerIdentity, true)
    && e.entries[isolation.IsolatedPath()] == d.entries[isolation.canonical].(identity := pinned)
    && e.entries - {isolation.ContainerPath(), isolation.IsolatedPath()} == d.entries - {isolation.canonical}
    && (forall p :: p in d.entries && p != isolation.canonical ==> p in e.entries && e.entries[p] == d.entries[p])
    && (forall p :: p in e.entries ==>
          p == isolation.ContainerPath() || p == isolation.IsolatedPath() || p in d.entries)
    && forall slot :: slot != isolation.slot ==> Inside(isolation.id, slot) !in e.entries
  }

  /** A rename this program performed: which entry went where. */
  datatype Move = Move(gen: nat, to: Path, node: Node)

  class FileSystem {
    var disk: Disk
    var removed: set<nat>      // generations this program has deleted
    var containers: set<nat>   // generations of cleanup containers this program created
    var moves: seq<Move>       // isolation renames this program performed
    var markersRead: seq<Node> // file owner markers this program has read and accepted
    var refused: seq<Node>     // JSON files it has read as owner markers and refused
    var vanished: seq<Path>    // where one of its plain lstat calls found nothing
    const faultless: bool      // no call fails, whatever others do
    const alone: bool          // nobody interferes
    const calm: bool := faultless && alone
    ghost const lostBefore: set<nat>
    ghost const firstGen: nat

    constructor (disk: Disk, faultless: bool, alone: bool)
      requires Consistent(disk)
      ensures Valid() && this.disk == disk && this.faultless == faultless && this.alone == alone
      ensures removed == {} && containers == {} && lostBefore == Lost(disk) && firstGen == disk.nextGen
    {
      this.disk, this.faultless, this.alone := disk, faultless, alone;
      removed, containers, moves, markersRead, refused, vanished := {}, {}, [], [], [], [];
      lostBefore, firstGen := Lost(disk), disk.nextGen;
    }

    /** Conservation: what has ever existed and is gone was gone before this program
        started, or this program deleted it. */
    ghost predicate Valid()
      reads this
    {
      && Consistent(disk)
      && Lost(disk) == lostBefore + removed
      && firstGen <= disk.nextGen
      && (forall g :: g in containers ==> firstGen <= g)
    }

    /** Whatever has existed since, and this program has not deleted, is at some path. */
    lemma SurvivesSomewhere(gen: nat)
      requires Valid() && gen < disk.nextGen && gen !in lostBefore && gen !in removed
      ensures exists p :: p in disk.entries && disk.entries[p].identity.gen == gen
    {
      assert gen !in Lost(disk);
      assert gen in Generations(disk);
    }

    /** Nothing but `expected` and this program's own containers has been deleted. */
    twostate predicate OnlyDeleted(expected: set<nat>)
      reads this
    {
      && old(containers) <= containers
      && old(removed) <= removed <= old(removed) + expected + containers
    }

    /** Every foreign generation moved since the old state is listed for recovery. */
    twostate predicate ForeignListed(expected: set<nat>, outcome: Outcome)
      reads this
    {
      && old(moves) <= moves
      && (forall i :: |old(moves)| <= i < |moves| ==>
            moves[i].gen in expected || (outcome.Preserved? && moves[i].to in outcome.recovery))
    }

    // ---- Single calls ----

    /** Everything other processes do between two calls of this program. */
    method Others(frozen: set<Path>)
      requires Valid()
      modifies this`disk
      ensures Valid() && old(disk).nextName <= disk.nextName
      ensures forall p :: p in frozen ==> Same(old(disk), disk, p)
      ensures calm ==> disk == old(disk)
    {
      assert Interference(disk, disk, frozen);
      if !calm {
        var next: Disk :| Interference(disk, next, frozen);
        assert Interference(disk, next, frozen);
        disk := next;
      }
    }

    /** A call whose only interesting outcome is success or failure (sync, read, parent
        checks). */
    method Io() returns (ok: bool)
      ensures faultless ==> ok
    {
      ok := *;
      if faultless { ok := true; }
    }

    method Mkdir(p: Path) returns (made: bool)
      requires Valid() && Named(p, disk.nextName)
      modifies this`disk
      ensures Valid() && disk.nextName == old(disk).nextName
      ensures !made ==> disk == old(disk)
      ensures made ==> (
        && p !in old(disk).entries && disk.nextGen == old(disk).nextGen + 1
        && p in disk.entries && disk.entries == old(disk).entries[p := disk.entries[p]]
        && disk.entries[p].isDirectory && disk.entries[p].identity.gen == old(disk).nextGen)
      ensures faultless && p !in old(disk).entries ==> made
    {
      made := Io();
      if p in disk.entries { made := false; }
      if made {
        var identity := Identity(disk.nextGen, 0, 0);
        var node := Node(identity, true, Text, 0, identity);
        CreationLosesNothing(disk, p, node);
        disk := Disk(disk.entries[p := node], disk.nextGen + 1, disk.nextName);
      }
    }

    /** rename into a slot nobody else can have taken. */
    method Rename(from: Path, to: Path) returns (moved: bool)
      requires Valid() && to !in disk.entries && from != to && Named(to, disk.nextName)
      modifies this`disk, this`moves
      ensures Valid() && disk.nextName == old(disk).nextName
      ensures !moved ==> disk == old(disk) && moves == old(moves)
      ensures moved ==> (
        && from in old(disk).entries && to in disk.entries
        && disk.entries == (old(disk).entries - {from})[to := disk.entries[to]]
        && disk.entries[to] == old(disk).entries[from].(identity := disk.entries[to].identity)
        && SameFileAfterRename(old(disk).entries[from].identity, disk.entries[to].identity)
        && moves == old(moves) + [Move(disk.entries[to].identity.gen, to, disk.entries[to])])
      ensures faultless && from in old(disk).entries ==> moved
    {
      moved := Io();
      if from !in disk.entries { moved := false; }
      if moved {
        var node := disk.entries[from];
        var ctime: int := *;
        var after := node.(identity := node.identity.(ctime := ctime));
        MoveLosesNothing(disk, from, to, after);
        disk := disk.(entries := (disk.entries - {from})[to := after]);
        moves := moves + [Move(after.identity.gen, to, after)];
      }
    }

    /** rm, and rmdir of an empty directory. */
    method Remove(p: Path) returns (gone: bool)
      requires Valid()
      modifies this`disk, this`removed
      ensures Valid() && disk.nextName == old(disk).nextName
      ensures !gone ==> disk == old(disk) && removed == old(removed)
      ensures gone ==> (
        && p in old(disk).entries && disk.entries == old(disk).entries - {p}
        && removed == old(removed) + {old(disk).entries[p].identity.gen})
      ensures faultless && p in old(disk).entries ==> gone
    {
      gone := Io();
      if p !in disk.entries { gone := false; }
      if gone {
        RemovalLosesOne(disk, p);
        removed := removed + {disk.entries[p].identity.gen};
        disk := disk.(entries := disk.entries - {p});
      }
    }

    method Lstat(p: Path) returns (look: Look)
      ensures look.Found? ==> p in disk.entries && look.node == disk.entries[p]
      ensures look.Absent? ==> p !in disk.entries
      ensures faultless && p in disk.entries ==> look.Found?
      ensures faultless ==> !look.Failed?
    {
      var ok := Io();
      look := if !ok then Failed else if p in disk.entries then Found(disk.entries[p]) else Absent;
    }

    /** A plain lstat, whose error is thrown as it is. */
    method LstatPlainly(p: Path) returns (look: Look)
      modifies this`vanished
      ensures look.Found? ==> p in disk.entries && look.node == disk.entries[p]
      ensures look.Absent? ==> p !in disk.entries
      ensures faultless && p in disk.entries ==> look.Found?
      ensures faultless ==> !look.Failed?
      ensures vanished == if look.Absent? then old(vanished) + [p] else old(vanished)
    {
      look := Lstat(p);
      if look.Absent? {
        vanished := vanished + [p];
      }
    }

    /** lstatIfPresent used as an absence test: true only when the path is absent. */
    method IsAbsent(p: Path) returns (absent: bool, looked: bool)
      ensures absent ==> p !in disk.entries && looked
      ensures faultless ==> looked && (absent <==> p !in disk.entries)
    {
      var look := Lstat(p);
      absent, looked := look.Absent?, !look.Failed?;
    }

    // ---- The container ----

    /** claimCleanupIsolation: a fresh container, pinned right after its creation. */
    method Claim(canonical: Path) returns (r: Claimed)
      requires Valid() && canonical.Public?
      modifies this`disk, this`containers
      ensures Valid() && old(containers) <= containers
      ensures r.NotClaimed? ==> r.outcome.Preserved?
      ensures r.Claimed? ==> (
        && r.isolation.canonical == canonical
        && r.isolation.IsolatedPath() !in disk.entries && Named(r.isolation.IsolatedPath(), disk.nextName)
        && r.isolation.containerIdentity.gen in containers)
      ensures calm ==> r.Claimed? && Pristine(old(disk), disk, r.isolation)
    {
      hide Consistent, Lost;
      Others({});
      var ok := Io();
      if !ok {
        return NotClaimed(Preserved({canonical}));
      }
      var id, slot := NewNames();
      var isolated, container := Inside(id, slot), Container(id);
      Others({isolated});
      var made := Mkdir(container);
      if !made {
        return NotClaimed(Preserved({canonical, container}));
      }
      containers := containers + {disk.entries[container].identity.gen};
      Others({container, isolated});
      var details := Lstat(container);
      if !details.Found? || !details.node.isDirectory {
        return NotClaimed(Preserved({canonical, container}));
      }
      var isolation := Isolation(canonical, id, slot, details.node.identity);
      Others({isolated});
      ok := Io();
      if !ok {
        return NotClaimed(Preserved({canonical, container}));
      }
      ok := ValidateContainer(isolation);
      r := if ok then Claimed(isolation) else NotClaimed(Preserved(isolation.Everywhere()));
    }

    /** Two fresh unguessable names. */
    method NewNames() returns (id: nat, slot: nat)
      requires Valid()
      modifies this`disk
      ensures Valid() && disk == old(disk).(nextName := disk.nextName) && old(disk).nextName < disk.nextName
      ensures Named(Inside(id, slot), disk.nextName) && Named(Container(id), disk.nextName)
      ensures Container(id) !in disk.entries && forall other :: Inside(id, other) !in disk.entries
    {
      id, slot := disk.nextName, disk.nextName + 1;
      disk := disk.(nextName := disk.nextName + 2);
      assert Generations(disk) == Generations(old(disk));
    }

    /** validateCleanupContainer */
    method ValidateContainer(isolation: Isolation) returns (ok: bool)
      ensures ok ==> (
        && isolation.ContainerPath() in disk.entries
        && SameFileIncarnation(isolation.containerIdentity, disk.entries[isolation.ContainerPath()].identity))
      ensures (calm && isolation.ContainerPath() in disk.entries
               && disk.entries[isolation.ContainerPath()].isDirectory
               && disk.entries[isolation.ContainerPath()].identity == isolation.containerIdentity) ==> ok
    {
      var details := Lstat(isolation.ContainerPath());
      ok := details.Found? && details.node.isDirectory
            && SameFileIncarnation(isolation.containerIdentity, details.node.identity);
    }

    /** releaseCleanupIsolation: removes the container, if it is still ours and empty. */
    method ReleaseContainer(isolation: Isolation) returns (r: Outcome)
      requires Valid()
      modifies this`disk, this`removed
      ensures Valid() && !r.Unlisted?
      ensures old(removed) <= removed <= old(removed) + {isolation.containerIdentity.gen}
      ensures (calm && isolation.ContainerPath() in old(disk).entries
               && old(disk).entries[isolation.ContainerPath()].isDirectory
               && old(disk).entries[isolation.ContainerPath()].identity == isolation.containerIdentity
               && (forall slot :: Inside(isolation.id, slot) !in old(disk).entries))
              ==> r.Done? && disk.entries == old(disk).entries - {isolation.ContainerPath()}
    {
      hide Consistent, Lost;
      var container := isolation.ContainerPath();
      Others({});
      var ok, looked := IsAbsent(isolation.IsolatedPath());
      if !ok {
        return Preserved({isolation.IsolatedPath(), container});
      }
      Others({});
      ok := ValidateContainer(isolation);
      if !ok {
        return Preserved(isolation.Everywhere());
      }
      Others({container});
      ok := Io();
      if !ok || exists p :: p in disk.entries && p.Inside? && p.container == isolation.id {
        return Preserved({container});
      }
      Others({container});
      // rmdir refuses a directory that has become non-empty
      if exists p :: p in disk.entries && p.Inside? && p.container == isolation.id {
        return Preserved({container});
      }
      ok := Remove(container);
      if !ok {
        return Preserved({container});
      }
      Others({});
      ok := Io();
      r := if ok then Done else Preserved({});
    }

    // ---- The shared shape ----

    /** The error of a failed isolation.  For a file, its text asks once more where the entry
        is (lstatIfPresent in the catch block); when that fails too, the raw error is thrown
        and no path is named. */
    method IsolationFailed(isolation: Isolation, isDirectory: bool) returns (outcome: Outcome)
      ensures outcome == Preserved(isolation.Everywhere()) || (outcome == Unlisted(LookFailed) && !faultless && !isDirectory)
    {
      var looked := Io();
      outcome := if looked || isDirectory then Preserved(isolation.Everywhere()) else Unlisted(LookFailed);
    }

    /** The first half of three of the four clean-ups: claim a container, check the canonical
        path one last time, rename it into the container and inspect what was moved.  The
        slot's name is private until then. */
    method Isolate(canonical: Path, identity: Identity, isDirectory: bool) returns (r: Isolated)
      requires Valid() && canonical.Public?
      modifies this`disk, this`containers, this`moves
      ensures Valid() && old(containers) <= containers && old(moves) <= moves
      ensures forall i :: |old(moves)| <= i < |moves| ==>
                moves[i].gen == identity.gen
                || (r.NotIsolated? && r.outcome.Preserved? && moves[i].to in r.outcome.recovery)
                || (r.NotIsolated? && r.outcome.Unlisted?)
      ensures r.NotIsolated? ==> r.outcome.Preserved? || (r.outcome == Unlisted(LookFailed) && !faultless && !isDirectory)
      ensures r.Isolated? ==> (
        && r.isolation.canonical == canonical && SameFileAfterRename(identity, r.pinned)
        && r.isolation.containerIdentity.gen in containers)
      ensures calm && At(old(disk), canonical, identity, isDirectory) ==>
                r.Isolated? && SetAside(old(disk), disk, r.isolation, r.pinned)
    {
      hide Consistent, Lost;
      var claimed := Claim(canonical);
      if claimed.NotClaimed? {
        return NotIsolated(claimed.outcome);
      }
      var isolation := claimed.isolation;
      var isolated, everywhere := isolation.IsolatedPath(), isolation.Everywhere();
      Others({isolated});
      var ok := ValidateContainer(isolation);
      Others({isolated});
      var details := Lstat(canonical);
      if !ok || !details.Found? || details.node.isDirectory != isDirectory
         || !SameFileIdentity(identity, details.node.identity) {
        var failed := IsolationFailed(isolation, isDirectory);
        return NotIsolated(failed);
      }
      Others({isolated});
      ok := Rename(canonical, isolated);
      if ok {
        Others({isolated});
        ok := Io();
      }
      if !ok {
        var failed := IsolationFailed(isolation, isDirectory);
        return NotIsolated(failed);
      }
      Others({isolated});
      details := Lstat(isolated);
      if !details.Found? || details.node.isDirectory != isDirectory
         || !SameFileAfterRename(identity, details.node.identity) {
        return NotIsolated(Preserved(everywhere));
      }
      r := Isolated(isolation, details.node.identity);
    }

    /** The second half: a last inspection of the slot, a last look at the canonical
        path, the removal, and the container's release.  Others may touch even the slot,
        except between the last inspection and the removal. */
    method Destroy(isolation: Isolation, pinned: Identity, isDirectory: bool, successor: Successor)
      returns (r: Outcome)
      requires Valid()
      modifies this`disk, this`removed
      ensures Valid() && (r.Unlisted? ==> r == Unlisted(LookFailed) && !faultless)
      ensures old(removed) <= removed <= old(removed) + {pinned.gen, isolation.containerIdentity.gen}
      ensures r.Done? ==> pinned.gen in removed
      ensures (calm && Welcome(old(disk), successor, isolation.canonical)
               && At(old(disk), isolation.IsolatedPath(), pinned, isDirectory)
               && At(old(disk), isolation.ContainerPath(), isolation.containerIdentity, true)
               && (forall slot :: slot != isolation.slot ==> Inside(isolation.id, slot) !in old(disk).entries))
              ==> r.Done? && disk.entries
                             == old(disk).entries - {isolation.ContainerPath(), isolation.IsolatedPath()}
    {
      hide Consistent, Lost;
      var isolated, everywhere := isolation.IsolatedPath(), isolation.Everywhere();
      Others({});
      var ok := ValidateContainer(isolation);
      if !ok {
        return Preserved(everywhere);
      }
      Others({});
      var details := Lstat(isolated);
      if !details.Found? || details.node.isDirectory != isDirectory || !SameFileIdentity(pinned, details.node.identity) {
        return Preserved(everywhere);
      }
      Others({isolated});
      var looked: bool;
      ok, looked := VerifySuccessor(isolation.canonical, successor);
      if !ok {
        return Refusal(looked, everywhere);
      }
      Others({isolated});
      ok := Remove(isolated);
      if !ok {
        return Preserved(everywhere);
      }
      Others({});
      ok := Io();
      if !ok {
        return Preserved({isolation.canonical, isolation.ContainerPath()});
      }
      Others({});
      ok, looked := IsAbsent(isolated);
      if !ok {
        return Refusal(looked, everywhere);
      }
      r := ReleaseContainer(isolation);
    }

    // ---- The four clean-ups ----

    /** verifyOwnerMarker against a pinned identity; no token, nothing to verify. */
    method VerifyOwner(p: Path, token: Option<nat>, identity: Identity) returns (ok: bool)
      ensures (calm && p in disk.entries && disk.entries[p].identity == identity
               && (token.Some? ==> Validates(disk.entries[p], token.value))) ==> ok
    {
      if token.None? {
        return true;
      }
      var node := Lstat(p);
      var readable := Io();
      ok := readable && node.Found? && Validates(node.node, token.value)
            && SameFileIdentity(node.node.identity, identity);
    }

    /** verifyDirectorySuccessor */
    method VerifySuccessor(directory: Path, successor: Successor) returns (ok: bool, looked: bool)
      ensures calm && Welcome(disk, successor, directory) ==> ok
      ensures ok || faultless ==> looked
    {
      match successor
      case Anybody => ok, looked := true, true;
      case Nobody => ok, looked := IsAbsent(directory);
      case Exactly(path, identity, token) =>
        ok := VerifyOwner(path, Some(token), identity);
        looked := true;
    }

    /** removeDirectoryAfterIsolation */
    method RemoveDirectoryAfterIsolation(directory: Path, identity: Identity, token: Option<nat>, successor: Successor)
      returns (r: Outcome)
      requires Valid() && directory.Public?
      modifies this`disk, this`removed, this`containers, this`moves
      ensures Valid() && OnlyDeleted({identity.gen}) && ForeignListed({identity.gen}, r)
      ensures r.Done? ==> identity.gen in removed
      ensures (calm && !successor.Exactly? && At(old(disk), directory, identity, true)
               && (token.Some? ==> Validates(old(disk).entries[directory], token.value)))
              ==> r.Done? && disk.entries == old(disk).entries - {directory}
    {
      hide Consistent, Lost;
      var aside := Isolate(directory, identity, true);
      if aside.NotIsolated? {
        return aside.outcome;
      }
      var isolation, pinned := aside.isolation, aside.pinned;
      var isolated, everywhere := isolation.IsolatedPath(), isolation.Everywhere();
      var confirmed := ConfirmOwned(isolation, pinned, token, successor);
      if !confirmed {
        return Preserved(everywhere);
      }
      r := Destroy(isolation, pinned, true, successor);
      if r.Done? {
        Others({});
        var ok, looked := VerifySuccessor(directory, successor);
        r := if ok then Done else Preserved({directory});
      }
    }

    /** Everything removeDirectoryAfterIsolation checks between isolation and the final
        removal boundary. */
    method ConfirmOwned(isolation: Isolation, pinned: Identity, token: Option<nat>, successor: Successor)
      returns (ok: bool)
      requires Valid()
      modifies this`disk
      ensures Valid()
      ensures calm ==> disk == old(disk)
      ensures (calm && Welcome(disk, successor, isolation.canonical)
               && isolation.IsolatedPath() in disk.entries
               && disk.entries[isolation.IsolatedPath()].identity == pinned
               && (token.Some? ==> Validates(disk.entries[isolation.IsolatedPath()], token.value))) ==> ok
    {
      hide Consistent, Lost;
      var isolated := isolation.IsolatedPath();
      Others({});
      ok := VerifyOwner(isolated, token, pinned);
      if !ok { return; }
      Others({});
      var looked: bool;
      ok, looked := VerifySuccessor(isolation.canonical, successor);
      if !ok { return; }
      Others({});
      var details := Lstat(isolated);
      ok := details.Found? && SameFileIdentity(pinned, details.node.identity);
      if !ok { return; }
      Others({});
      ok := VerifyOwner(isolated, token, pinned);
    }

    /** removeCreatedFileAfterIsolation */
    method RemoveCreatedFileAfterIsolation(file: Path, expected: Identity) returns (r: Outcome)
      requires Valid() && file.Public?
      modifies this`disk, this`removed, this`containers, this`moves
      ensures Valid() && OnlyDeleted({expected.gen}) && old(moves) <= moves
      ensures ForeignListed({expected.gen}, r) || (r == Unlisted(LookFailed) && !faultless)
      ensures calm && At(old(disk), file, expected, false) ==>
                r.Done? && disk.entries == old(disk).entries - {file}
    {
      hide Consistent, Lost;
      var current := Lstat(file);
      if !current.Found? {
        return if current.Absent? then Done else Unlisted(LookFailed);
      }
      if current.node.isDirectory || !SameFileIdentity(expected, current.node.identity) {
        return Preserved({file});
      }
      var aside := Isolate(file, expected, false);
      if aside.NotIsolated? {
        return aside.outcome;
      }
      var isolation := aside.isolation;
      Others({});
      var ok, looked := IsAbsent(file);
      if !ok {
        return Refusal(looked, isolation.Everywhere());
      }
      Others({});
      var details := Lstat(isolation.IsolatedPath());
      if !details.Found? || !SameFileIdentity(aside.pinned, details.node.identity) {
        return Preserved(isolation.Everywhere());
      }
      r := Destroy(isolation, aside.pinned, false, Nobody);
      if r.Done? {
        ok, looked := IsAbsent(file);
        r := if ok then Done else Refusal(looked, {file, isolation.ContainerPath()});
      }
    }

    /** validateOwnedFileMarker */
    method Validate(node: Node, token: nat) returns (ok: bool)
      modifies this`refused
      ensures ok <==> Validates(node, token)
      ensures refused == if ok then old(refused) else old(refused) + [node]
    {
      ok := Validates(node, token);
      if !ok {
        refused := refused + [node];
      }
    }

    /** readOwnedFileMarkerSnapshot: a read that fails names its path, a refusal does not. */
    method ReadMarker(marker: Path, token: nat) returns (reading: Reading)
      modifies this`markersRead, this`refused
      ensures reading.Read? ==> (
        && markersRead == old(markersRead) + [reading.node]
        && marker in disk.entries && reading.node == disk.entries[marker]
        && Validates(reading.node, token) && !reading.node.isDirectory)
      ensures !reading.Read? ==> markersRead == old(markersRead)
      ensures reading.Unfit? ==> marker in disk.entries && Refused(disk.entries[marker], token)
      ensures refused == if reading.Unfit? then old(refused) + [disk.entries[marker]] else old(refused)
      ensures (faultless && marker in disk.entries && Validates(disk.entries[marker], token)
               && !disk.entries[marker].isDirectory) ==> reading.Read?
      ensures faultless && marker in disk.entries && Refused(disk.entries[marker], token) ==> reading.Unfit?
    {
      var look := Lstat(marker);
      var readable := Io();
      if !readable || !look.Found? || look.node.form.Text? || look.node.isDirectory {
        return Unread;
      }
      var ok := Validate(look.node, token);
      if !ok {
        return Unfit;
      }
      markersRead := markersRead + [look.node];
      reading := Read(look.node);
    }

    /** removeOwnedFile: the data file and its owner marker, together. */
    method RemoveOwnedFile(file: Path, marker: Path, token: nat) returns (r: Outcome)
      requires Valid() && file.Public? && marker.Public? && file != marker
      modifies this`disk, this`removed, this`containers, this`moves, this`markersRead, this`refused, this`vanished
      ensures Valid() && old(markersRead) <= markersRead
      ensures forall m :: m in markersRead[|old(markersRead)|..] ==> Validates(m, token)
      ensures OnlyDeleted(Vouched(markersRead[|old(markersRead)|..]))
      ensures ForeignListed(Vouched(markersRead[|old(markersRead)|..]), r) || (r == Unlisted(LookFailed) && !faultless)
      ensures calm && OwnedPair(old(disk), file, marker, token) ==>
                r.Done? && disk.entries == old(disk).entries - {file, marker}
    {
      hide Consistent, Lost;
      var fileAbsent, fileLooked := IsAbsent(file);
      var markerAbsent, markerLooked := IsAbsent(marker);
      if !fileLooked || !markerLooked {
        return Unlisted(LookFailed);
      }
      if fileAbsent && markerAbsent {
        assert markersRead[|old(markersRead)|..] == [];
        return Done;
      }
      if markerAbsent {
        return Preserved({file, marker});
      }
      Others({});
      var reading := ReadMarker(marker, token);
      if !reading.Read? {
        return if reading.Unfit? then Unlisted(Invalid) else Preserved({file, marker});
      }
      var snapshot := reading.node;
      assert markersRead[|old(markersRead)|..] == [snapshot];
      assert Vouched([snapshot]) == {snapshot.identity.gen, snapshot.records.gen};
      r := RemovePair(file, marker, token, snapshot, fileAbsent);
    }

    /** removeOwnedFile after its marker has been read. */
    method RemovePair(file: Path, marker: Path, token: nat, snapshot: Node, fileAbsent: bool) returns (r: Outcome)
      requires Valid() && file.Public? && marker.Public? && file != marker
      modifies this`disk, this`removed, this`containers, this`moves, this`refused, this`vanished
      ensures Valid() && OnlyDeleted({snapshot.identity.gen, snapshot.records.gen})
      ensures ForeignListed({snapshot.identity.gen, snapshot.records.gen}, r) || (r == Unlisted(LookFailed) && !faultless)
      ensures (calm && OwnedPair(old(disk), file, marker, token) && old(disk).entries[marker] == snapshot && !fileAbsent)
              ==> r.Done? && disk.entries == old(disk).entries - {file, marker}
    {
      hide Consistent, Lost;
      var data: Option<Isolated> := None;
      if !fileAbsent {
        Others({});
        var details := LstatPlainly(file);
        if !details.Found? {
          return Missed(details);
        }
        if details.node.isDirectory || !SameFileIdentity(details.node.identity, snapshot.records) {
          return Preserved({file, marker});
        }
        Others({});
        var isolated := Isolate(file, snapshot.records, false);
        if isolated.NotIsolated? {
          return With(isolated.outcome, {file, marker});
        }
        data := Some(isolated);
      }
      ghost var before := disk.entries;
      r := RemoveWithMarker(file, marker, token, snapshot, data);
      assert before - {marker} - SlotsOf(data) == before - SlotsOf(data) - {marker};
    }

    /** The rest of removeOwnedFile, once the data file (if any) is in its slot. */
    method RemoveWithMarker(file: Path, marker: Path, token: nat, snapshot: Node, data: Option<Isolated>)
      returns (r: Outcome)
      requires Valid() && file.Public? && marker.Public? && file != marker
      requires data.Some? ==> (
        && data.value.Isolated? && data.value.isolation.canonical == file
        && data.value.pinned.gen == snapshot.records.gen
        && data.value.isolation.containerIdentity.gen in containers)
      modifies this`disk, this`removed, this`containers, this`moves, this`refused
      ensures Valid() && OnlyDeleted({snapshot.identity.gen, snapshot.records.gen})
      ensures old(moves) <= moves
      ensures ForeignListed({snapshot.identity.gen}, r) || (r == Unlisted(LookFailed) && !faultless)
      ensures (calm && file !in old(disk).entries && marker in old(disk).entries
               && old(disk).entries[marker] == snapshot && Validates(snapshot, token) && !snapshot.isDirectory
               && (data.Some? ==> InSlot(old(disk), data.value.isolation, data.value.pinned)))
              ==> r.Done? && disk.entries == old(disk).entries - {marker} - SlotsOf(data)
    {
      hide Consistent, Lost;
      Others({});
      var details := Lstat(marker);
      if !details.Found? || !SameFileIdentity(snapshot.identity, details.node.identity) {
        return Refusal(!details.Failed?, {file, marker} + SlotsOf(data));
      }
      var aside := Isolate(marker, snapshot.identity, false);
      if aside.NotIsolated? {
        return With(aside.outcome, {file, marker} + SlotsOf(data));
      }
      var recovery := aside.isolation.Everywhere() + {file} + SlotsOf(data);
      r := ConfirmPair(file, marker, token, aside.isolation, aside.pinned);
      if !r.Done? {
        return With(r, recovery);
      }
      ghost var before := disk.entries;
      r := DestroyPair(data, aside.isolation, aside.pinned);
      r := With(r, recovery);
      assert before - SlotsOf(data) - {aside.isolation.ContainerPath(), aside.isolation.IsolatedPath()}
          == before - {aside.isolation.ContainerPath(), aside.isolation.IsolatedPath()} - SlotsOf(data);
    }

    /** The data file goes first: a crash in between leaves the marker to finish by. */
    method DestroyPair(data: Option<Isolated>, isolation: Isolation, pinned: Identity) returns (r: Outcome)
      requires Valid() && (data.Some? ==> data.value.Isolated?)
      modifies this`disk, this`removed
      ensures Valid() && old(removed) <= removed && (r.Unlisted? ==> r == Unlisted(LookFailed) && !faultless)
      ensures removed <= old(removed) + {pinned.gen, isolation.containerIdentity.gen} + GenerationsOf(data)
      ensures (calm && isolation.canonical !in old(disk).entries && InSlot(old(disk), isolation, pinned)
               && (data.Some? ==> data.value.isolation.canonical !in old(disk).entries
                                  && data.value.isolation.id != isolation.id
                                  && InSlot(old(disk), data.value.isolation, data.value.pinned)))
              ==> r.Done? && disk.entries == old(disk).entries - SlotsOf(data)
                             - {isolation.ContainerPath(), isolation.IsolatedPath()}
    {
      hide Consistent, Lost;
      if data.Some? {
        r := DestroyConfirmed(data.value.isolation, data.value.pinned);
        if !r.Done? {
          return;
        }
      }
      r := DestroyConfirmed(isolation, pinned);
    }

    /** What removeOwnedFile checks once both entries are isolated: Done if nothing objects. */
    method ConfirmPair(file: Path, marker: Path, token: nat, isolation: Isolation, pinned: Identity)
      returns (r: Outcome)
      requires Valid()
      modifies this`disk, this`refused
      ensures Valid() && (calm ==> disk == old(disk))
      ensures (calm && file !in disk.entries && marker !in disk.entries
               && isolation.IsolatedPath() in disk.entries
               && Validates(disk.entries[isolation.IsolatedPath()], token)
               && !disk.entries[isolation.IsolatedPath()].isDirectory
               && disk.entries[isolation.IsolatedPath()].identity == pinned) ==> r.Done?
    {
      hide Consistent, Lost;
      Others({});
      var look := Lstat(isolation.IsolatedPath());
      var readable := Io();
      if !readable || !look.Found? || look.node.form.Text? || look.node.isDirectory {
        return Preserved({isolation.IsolatedPath()});
      }
      var ok := Validate(look.node, token);
      if !ok {
        return Unlisted(Invalid);
      }
      if !SameFileIdentity(look.node.identity, pinned) {
        return Preserved(isolation.Everywhere());
      }
      Others({});
      var fileAbsent, fileLooked := IsAbsent(file);
      if !fileAbsent {
        return Refusal(fileLooked, isolation.Everywhere());
      }
      var markerAbsent, markerLooked := IsAbsent(marker);
      r := if markerAbsent then Done else Refusal(markerLooked, isolation.Everywhere());
    }

    /** One more inspection of a slot, then its destruction. */
    method DestroyConfirmed(isolation: Isolation, pinned: Identity) returns (r: Outcome)
      requires Valid()
      modifies this`disk, this`removed
      ensures Valid() && (r.Unlisted? ==> r == Unlisted(LookFailed) && !faultless)
      ensures old(removed) <= removed <= old(removed) + {pinned.gen, isolation.containerIdentity.gen}
      ensures (calm && isolation.canonical !in old(disk).entries && InSlot(old(disk), isolation, pinned))
              ==> r.Done? && disk.entries
                             == old(disk).entries - {isolation.ContainerPath(), isolation.IsolatedPath()}
    {
      hide Consistent, Lost;
      Others({});
      var details := Lstat(isolation.IsolatedPath());
      if !details.Found? || !SameFileIdentity(pinned, details.node.identity) {
        return Preserved(isolation.Everywhere());
      }
      r := Destroy(isolation, pinned, false, Nobody);
    }

    predicate Listed(m: Move, outcome: Outcome) {
      outcome.Preserved? && m.to in outcome.recovery
    }

    /** Since the old state at most one entry was moved, and unless it is an expected one, it
        is listed, or it was read as JSON and refused, or a look failed.  With no call failing
        it is listed exactly if it is not a regular file that is read as JSON and refused. */
    twostate predicate MovedAndListed(expected: set<nat>, token: nat, outcome: Outcome)
      reads this
    {
      && old(moves) <= moves && |moves| <= |old(moves)| + 1
      && (|moves| > |old(moves)| && moves[|old(moves)|].gen !in expected ==>
            var m := moves[|old(moves)|];
            && (Listed(m, outcome) || (outcome == Unlisted(Invalid) && Refused(m.node, token))
                || (outcome == Unlisted(LookFailed) && !faultless))
            && (faultless ==> (Listed(m, outcome) <==> !Refused(m.node, token))))
    }

    /** When an error names no path: exactly if a marker was read and refused, or a plain lstat
        found nothing, or else a look failed. */
    twostate predicate NamelessExactly(token: nat, committed: Path, outcome: Outcome)
      reads this
    {
      && (outcome == Unlisted(Invalid) <==> refused != old(refused))
      && (outcome == Unlisted(Vanished) <==> vanished != old(vanished))
      && (outcome == Unlisted(LookFailed) ==> !faultless)
      && old(refused) <= refused && |refused| <= |old(refused)| + 1
      && (|refused| > |old(refused)| ==> Refused(refused[|old(refused)|], token))
      && (vanished == old(vanished) || vanished == old(vanished) + [committed])
    }

    /** releaseOwnedMarkerForCommittedFile: drop the owner marker of a file that has been
        committed, as long as the committed file is still the one the marker records.  Nothing
        but a marker that was read and accepted is deleted.  A foreign entry that was moved in
        the marker's place is listed, unless it is a regular JSON file that is refused. */
    method ReleaseCommittedMarker(marker: Path, committed: Path, token: nat) returns (r: Outcome)
      requires Valid() && marker.Public? && committed.Public? && marker != committed
      modifies this`disk, this`removed, this`containers, this`moves, this`markersRead, this`refused, this`vanished
      ensures Valid() && old(markersRead) <= markersRead
      ensures forall m :: m in markersRead[|old(markersRead)|..] ==> Validates(m, token)
      ensures OnlyDeleted(set m | m in markersRead[|old(markersRead)|..] :: m.identity.gen)
      ensures MovedAndListed(set m | m in markersRead[|old(markersRead)|..] :: m.identity.gen, token, r)
      ensures NamelessExactly(token, committed, r)
      ensures (calm && OwnedPair(old(disk), committed, marker, token)) ==>
                r.Done? && disk.entries == old(disk).entries - {marker}
      ensures calm && marker !in old(disk).entries ==> r.Done? && disk == old(disk)
      ensures (calm && marker in old(disk).entries && Refused(old(disk).entries[marker], token)) ==>
                r == Unlisted(Invalid) && disk == old(disk) && moves == old(moves)
    {
      hide Consistent, Lost;
      var absent, looked := IsAbsent(marker);
      if absent || !looked {
        return if absent then Done else Unlisted(LookFailed);
      }
      var reading := ReadMarker(marker, token);
      if !reading.Read? {
        return if reading.Unfit? then Unlisted(Invalid) else Preserved({marker});
      }
      var snapshot := reading.node;
      assert markersRead[|old(markersRead)|..] == [snapshot];
      assert (set m | m in [snapshot] :: m.identity.gen) == {snapshot.identity.gen};
      Others({});
      var details := Lstat(committed);
      if details.Failed? {
        return Unlisted(LookFailed);
      }
      if details.Absent? || details.node.isDirectory
         || (!SameFileIdentity(details.node.identity, snapshot.records)
             && !SameFileAfterRename(snapshot.records, details.node.identity)) {
        return Preserved({committed, marker});
      }
      r := ReleasePinned(marker, committed, token, snapshot, details.node.identity);
    }

    /** The rest of it, with both the marker and the committed file pinned. */
    method ReleasePinned(marker: Path, committed: Path, token: nat, snapshot: Node, pinnedFile: Identity)
      returns (r: Outcome)
      requires Valid() && marker.Public? && committed.Public? && marker != committed
      modifies this`disk, this`removed, this`containers, this`moves, this`refused, this`vanished
      ensures Valid() && OnlyDeleted({snapshot.identity.gen})
      ensures MovedAndListed({snapshot.identity.gen}, token, r) && NamelessExactly(token, committed, r)
      ensures (calm && marker in old(disk).entries && old(disk).entries[marker] == snapshot
               && Validates(snapshot, token) && !snapshot.isDirectory && At(old(disk), committed, pinnedFile, false))
              ==> r.Done? && disk.entries == old(disk).entries - {marker}
    {
      hide Consistent, Lost;
      Others({});
      var details := LstatPlainly(committed);
      if !details.Found? {
        return Missed(details);
      }
      if !SameFileIdentity(pinnedFile, details.node.identity) {
        return Preserved({committed, marker});
      }
      var claimed := ClaimForMarker(marker, snapshot.identity);
      if claimed.NotClaimed? {
        return With(claimed.outcome, {committed, marker});
      }
      Others({claimed.isolation.IsolatedPath()});
      r := MoveMarker(claimed.isolation, committed, token, snapshot, pinnedFile);
    }

    /** A claimed container, and the marker's last check before the rename. */
    method ClaimForMarker(marker: Path, identity: Identity) returns (r: Claimed)
      requires Valid() && marker.Public?
      modifies this`disk, this`containers
      ensures Valid() && old(containers) <= containers
      ensures r.NotClaimed? ==> r.outcome.Preserved? || (r.outcome == Unlisted(LookFailed) && !faultless)
      ensures r.Claimed? ==> (
        && r.isolation.canonical == marker && r.isolation.containerIdentity.gen in containers
        && r.isolation.IsolatedPath() !in disk.entries && Named(r.isolation.IsolatedPath(), disk.nextName))
      ensures calm && At(old(disk), marker, identity, false) ==> r.Claimed? && Pristine(old(disk), disk, r.isolation)
    {
      hide Consistent, Lost;
      r := Claim(marker);
      if r.NotClaimed? {
        return;
      }
      var isolation := r.isolation;
      Others({isolation.IsolatedPath()});
      var ok := ValidateContainer(isolation);
      Others({isolation.IsolatedPath()});
      var details := Lstat(marker);
      if !ok || !details.Found? || details.node.isDirectory || !SameFileIdentity(identity, details.node.identity) {
        var failed := IsolationFailed(isolation, false);
        r := NotClaimed(failed);
      }
    }

    /** From the rename on: sync, read back what was moved, check that it is our marker, then
        its generation, and only then destroy it. */
    method MoveMarker(isolation: Isolation, committed: Path, token: nat, snapshot: Node, pinnedFile: Identity)
      returns (r: Outcome)
      requires Valid() && isolation.canonical.Public? && committed.Public? && isolation.canonical != committed
      requires isolation.IsolatedPath() !in disk.entries && Named(isolation.IsolatedPath(), disk.nextName)
      requires isolation.containerIdentity.gen in containers
      modifies this`disk, this`removed, this`moves, this`refused, this`vanished
      ensures Valid() && OnlyDeleted({snapshot.identity.gen})
      ensures MovedAndListed({snapshot.identity.gen}, token, r) && NamelessExactly(token, committed, r)
      ensures (calm && isolation.canonical in old(disk).entries && old(disk).entries[isolation.canonical] == snapshot
               && Validates(snapshot, token) && !snapshot.isDirectory && At(old(disk), committed, pinnedFile, false)
               && At(old(disk), isolation.ContainerPath(), isolation.containerIdentity, true)
               && (forall slot :: Inside(isolation.id, slot) !in old(disk).entries))
              ==> r.Done? && disk.entries == old(disk).entries - {isolation.canonical, isolation.ContainerPath()}
      ensures (calm && isolation.canonical in old(disk).entries && Refused(old(disk).entries[isolation.canonical], token))
              ==> r == Unlisted(Invalid) && MovedAway(isolation)
    {
      hide Consistent, Lost;
      var marker, isolated := isolation.canonical, isolation.IsolatedPath();
      var ok, back := RenameAndRead(marker, isolated);
      if !ok {
        r := IsolationFailed(isolation, false);
        return;
      }
      if !back.Found? || back.node.form.Text? || back.node.isDirectory {
        return Preserved({isolated});
      }
      ok := Validate(back.node, token);
      if !ok {
        return Unlisted(Invalid);
      }
      if !SameFileAfterRename(snapshot.identity, back.node.identity) {
        return Preserved(isolation.Everywhere() + {committed});
      }
      r := FinishMarker(isolation, committed, back.node.identity, pinnedFile);
    }

    /** The canonical entry is in the slot, and that move is on record. */
    twostate predicate MovedAway(isolation: Isolation)
      reads this
    {
      && isolation.canonical in old(disk).entries && isolation.canonical !in disk.entries
      && isolation.IsolatedPath() in disk.entries
      && disk.entries[isolation.IsolatedPath()].identity.gen == old(disk).entries[isolation.canonical].identity.gen
      && |moves| == |old(moves)| + 1
      && moves[|old(moves)|].gen == old(disk).entries[isolation.canonical].identity.gen
    }

    /** rename, the directories' sync, and the moved entry as read back. */
    method RenameAndRead(from: Path, to: Path) returns (synced: bool, back: Look)
      requires Valid() && to !in disk.entries && from != to && Named(to, disk.nextName)
      modifies this`disk, this`moves
      ensures Valid() && old(moves) <= moves && |moves| <= |old(moves)| + 1
      ensures |moves| > |old(moves)| ==> moves[|old(moves)|].to == to
      ensures back.Found? ==> synced && moves == old(moves) + [Move(back.node.identity.gen, to, back.node)]
      ensures faultless ==> (synced <==> back.Found?) && (!synced ==> moves == old(moves))
      ensures (calm && from in old(disk).entries) ==> (
        && synced && disk.entries == (old(disk).entries - {from})[to := back.node]
        && back.node == old(disk).entries[from].(identity := back.node.identity)
        && SameFileAfterRename(old(disk).entries[from].identity, back.node.identity))
    {
      hide Consistent, Lost;
      back := Failed;
      synced := Rename(from, to);
      if synced {
        Others({to});
        synced := Io();
      }
      if synced {
        Others({to});
        back := Lstat(to);
        var readable := Io();
        back := if readable then back else Failed;
      }
    }

    /** Once the moved marker is known to be ours: the committed file must still be there, and
        nothing in the marker's place. */
    method FinishMarker(isolation: Isolation, committed: Path, pinned: Identity, pinnedFile: Identity) returns (r: Outcome)
      requires Valid() && committed.Public? && isolation.canonical.Public?
      modifies this`disk, this`removed, this`vanished
      ensures Valid() && (r.Unlisted? ==> !r.reason.Invalid?)
      ensures r == Unlisted(Vanished) <==> vanished != old(vanished)
      ensures r == Unlisted(LookFailed) ==> !faultless
      ensures vanished == old(vanished) || vanished == old(vanished) + [committed]
      ensures old(removed) <= removed <= old(removed) + {pinned.gen, isolation.containerIdentity.gen}
      ensures (calm && isolation.canonical !in old(disk).entries && At(old(disk), committed, pinnedFile, false)
               && InSlot(old(disk), isolation, pinned))
              ==> r.Done? && disk.entries == old(disk).entries - {isolation.ContainerPath(), isolation.IsolatedPath()}
      ensures calm && committed !in old(disk).entries ==>
                r == Unlisted(Vanished) && disk == old(disk) && removed == old(removed)
    {
      hide Consistent, Lost;
      var recovery := isolation.Everywhere() + {committed};
      Others({});
      var details := LstatPlainly(committed);
      if !details.Found? {
        return Missed(details);
      }
      if !SameFileIdentity(pinnedFile, details.node.identity) {
        return Preserved(recovery);
      }
      var absent, looked := IsAbsent(isolation.canonical);
      if !absent {
        return Refusal(looked, recovery);
      }
      r := DestroyConfirmed(isolation, pinned);
      if !r.Done? {
        return With(r, recovery);
      }
      Others({});
      details := Lstat(committed);
      if !details.Found? || !SameFileIdentity(pinnedFile, details.node.identity) {
        r := Refusal(!details.Failed?, {committed, isolation.canonical});
      }
    }

    /** Another process moves an entry elsewhere. */
    method Vacate(p: Path, elsewhere: Path)
      requires Valid() && p in disk.entries && elsewhere !in disk.entries && elsewhere.Public?
      modifies this`disk
      ensures Valid() && disk == old(disk).(entries := (old(disk).entries - {p})[elsewhere := old(disk).entries[p]])
    {
      MoveLosesNothing(disk, p, elsewhere, disk.entries[p]);
      disk := disk.(entries := (disk.entries - {p})[elsewhere := disk.entries[p]]);
    }

    /** Another process creates an owner marker of its own. */
    method Fill(p: Path, token: nat)
      requires Valid() && p !in disk.entries && p.Public?
      modifies this`disk
      ensures Valid() && disk.nextName == old(disk).nextName && p in disk.entries
      ensures disk.entries[p].token == token && disk.entries[p].form.Marker? && !disk.entries[p].isDirectory
      ensures disk.entries[p].identity.gen == old(disk).nextGen
      ensures disk.entries == old(disk).entries[p := disk.entries[p]]
    {
      var identity := Identity(disk.nextGen, 0, 0);
      var node := Node(identity, false, Marker, token, identity);
      CreationLosesNothing(disk, p, node);
      disk := Disk(disk.entries[p := node], disk.nextGen + 1, disk.nextName);
    }

    /** Both: a new marker in the entry's place. */
    method Replace(p: Path, elsewhere: Path, token: nat)
      requires Valid() && p in disk.entries && elsewhere !in disk.entries && p.Public? && elsewhere.Public?
      modifies this`disk
      ensures Valid() && disk.nextName == old(disk).nextName
      ensures p in disk.entries && disk.entries[p].token == token && disk.entries[p].form.Marker?
      ensures !disk.entries[p].isDirectory && disk.entries[p].identity.gen == old(disk).nextGen
      ensures disk.entries - {p, elsewhere} == old(disk).entries - {p}
    {
      hide Valid, Consistent, Lost;
      Vacate(p, elsewhere);
      Fill(p, token);
    }
  }

  /** The listing fails of the code: between the marker's last check and the rename, another
      process puts a marker with another token at the marker's path.  That file is moved away,
      the error names no path, and the retry finds no marker and reports success. */
  method ForeignMarkerGoesUnlisted() returns (fs: FileSystem, foreign: nat, first: Outcome, retry: Outcome)
    ensures fs.Valid() && fs.faultless
    ensures first == Unlisted(Invalid) && retry.Done?
    ensures exists m :: m in fs.moves && m.gen == foreign
    ensures exists p :: p in fs.disk.entries && !p.Public? && fs.disk.entries[p].identity.gen == foreign
  {
    var isolation: Isolation;
    var owner: Node;
    fs, isolation, owner := MarkerClaimed();
    foreign := fs.disk.nextGen;
    fs.Replace(Public(1), Public(2), 6);
    assert isolation.IsolatedPath() !in fs.disk.entries - {Public(1), Public(2)};
    first := fs.MoveMarker(isolation, Public(0), 5, owner, owner.records);
    ghost var moved := fs.moves[|fs.moves| - 1];
    assert moved in fs.moves;
    retry := fs.ReleaseCommittedMarker(Public(1), Public(0), 5);
  }

  /** A file and its marker, checked for the last time, and a container claimed for it. */
  method MarkerClaimed() returns (fs: FileSystem, isolation: Isolation, owner: Node)
    ensures fresh(fs) && fs.Valid() && fs.calm && fs.removed == {}
    ensures isolation.canonical == Public(1) && isolation.containerIdentity.gen in fs.containers
    ensures isolation.IsolatedPath() !in fs.disk.entries && Named(isolation.IsolatedPath(), fs.disk.nextName)
    ensures Public(0) in fs.disk.entries && Public(1) in fs.disk.entries && Public(2) !in fs.disk.entries
  {
    var data := Node(Identity(0, 0, 0), false, Text, 0, Identity(0, 0, 0));
    owner := Node(Identity(1, 0, 0), false, Marker, 5, data.identity);
    fs := new FileSystem(Disk(map[Public(0) := data, Public(1) := owner], 2, 0), true, true);
    var claimed := fs.ClaimForMarker(Public(1), owner.identity);
    isolation := claimed.isolation;
    var others := fs.disk.entries - {isolation.ContainerPath()};
    assert Public(0) in others && Public(1) in others && Public(2) !in others;
  }

  /** The program's own marker goes the same way: once it is in its slot, another process moves
      the committed file; the plain lstat throws, no path is named, and the retry succeeds. */
  method OwnMarkerGoesUnlisted() returns (fs: FileSystem, own: nat, first: Outcome, retry: Outcome)
    ensures fs.Valid() && fs.faultless
    ensures first == Unlisted(Vanished) && retry.Done?
    ensures own !in fs.removed
    ensures exists p :: p in fs.disk.entries && !p.Public? && fs.disk.entries[p].identity.gen == own
  {
    var isolation: Isolation;
    fs, isolation := MarkerAside();
    own := fs.disk.entries[isolation.IsolatedPath()].identity.gen;
    fs.Vacate(Public(0), Public(2));
    first := fs.FinishMarker(isolation, Public(0), fs.disk.entries[isolation.IsolatedPath()].identity, Identity(0, 0, 0));
    retry := fs.ReleaseCommittedMarker(Public(1), Public(0), 5);
    assert isolation.IsolatedPath() in fs.disk.entries;
  }

  /** A file and its marker, the marker moved into its slot. */
  method MarkerAside() returns (fs: FileSystem, isolation: Isolation)
    ensures fresh(fs) && fs.Valid() && fs.calm && fs.removed == {}
    ensures isolation.canonical == Public(1) && isolation.IsolatedPath() in fs.disk.entries
    ensures Public(0) in fs.disk.entries && Public(1) !in fs.disk.entries && Public(2) !in fs.disk.entries
  {
    var owner: Node;
    fs, isolation, owner := MarkerClaimed();
    var synced, back := fs.RenameAndRead(Public(1), isolation.IsolatedPath());
  }

  /** An isolated entry in its otherwise empty container. */
  ghost predicate InSlot(d: Disk, isolation: Isolation, pinned: Identity) {
    && At(d, isolation.IsolatedPath(), pinned, false)
    && At(d, isolation.ContainerPath(), isolation.containerIdentity, true)
    && forall slot :: slot != isolation.slot ==> Inside(isolation.id, slot) !in d.entries
  }

  /** A data file with the marker that records it. */
  predicate OwnedPair(d: Disk, file: Path, marker: Path, token: nat) {
    && marker in d.entries && !d.entries[marker].isDirectory && Validates(d.entries[marker], token)
    && At(d, file, d.entries[marker].records, false)
  }

  function GenerationsOf(data: Option<Isolated>): set<nat> {
    if data.Some? && data.value.Isolated?
    then {data.value.pinned.gen, data.value.isolation.containerIdentity.gen} else {}
  }

  function SlotsOf(data: Option<Isolated>): set<Path> {
    if data.Some? && data.value.Isolated?
    then {data.value.isolation.ContainerPath(), data.value.isolation.IsolatedPath()} else {}
  }

  /** The generations a marker answers for: itself and the file it records. */
  function Vouched(markers: seq<Node>): set<nat> {
    (set m | m in markers :: m.identity.gen) + (set m | m in markers :: m.records.gen)
  }

  /** Who may stand at a removed directory's path afterwards. */
  datatype Successor = Anybody | Nobody | Exactly(path: Path, identity: Identity, token: nat)

  predicate Welcome(d: Disk, successor: Successor, directory: Path) {
    match successor
    case Anybody => true
    case Nobody => directory !in d.entries
    case Exactly(path, identity, token) =>
      path in d.entries && d.entries[path].identity == identity && Validates(d.entries[path], token)
  }
}
