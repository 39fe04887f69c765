/** Stopping the worker processes of a batch: three scans with two rounds of stopping between
    them, over whatever the scans, the liveness checks and the kills answer. */
module WorkerCleanup {
  import opened Bytes
  import opened Options

  const COLON: Byte := 0x3a

  /** A captured process identity; `canonicalTime` says that capturedAt is a canonical ISO time
      and `exact` that birthIdPrecision is "exact". */
  datatype Identity = Identity(pid: int, birthId: seq<Byte>, incarnation: seq<Byte>, canonicalTime: bool, exact: bool,
                               group: Option<int>)

  datatype ReportedPid = Absent | Invalid | Pid(pid: int)

  datatype Worker = Worker(id: nat, pid: ReportedPid, identity: Option<Identity>)

  /** One discovered process: a record, or a number (None when it is no safe integer). */
  datatype Discovered = Record(identity: Identity) | Number(pid: Option<int>)

  datatype Liveness = Alive | Dead | Unknown

  datatype Tag = InvalidWorker(id: nat) | PidTag(pid: int) | IncarnationTag(incarnation: seq<Byte>)

  /** What the clean-up asked of the system and was answered. */
  datatype Event =
    | Scan(found: Option<seq<Discovered>>)
    | Check(incarnation: seq<Byte>, answer: Liveness)
    | Kill(identity: Identity, ok: bool)

  predicate SafePid(pid: int) {
    0 < pid <= MAX_SAFE_INTEGER
  }

  function Incarnation(pid: int, birthId: seq<Byte>): seq<Byte>
    requires pid > 0
  {
    Decimal(pid) + [COLON] + birthId
  }

  /** processIdentityLike */
  predicate Like(identity: Identity) {
    && SafePid(identity.pid) && identity.birthId != [] && identity.canonicalTime && identity.exact
    && identity.incarnation == Incarnation(identity.pid, identity.birthId)
    && (identity.group.Some? ==> SafePid(identity.group.value))
  }

  /** An incarnation names one process id and one birth. */
  lemma IncarnationIsInjective(a: Identity, b: Identity)
    requires Like(a) && Like(b) && a.incarnation == b.incarnation
    ensures a.pid == b.pid && a.birthId == b.birthId
  {
    DecimalIsNumeral(a.pid);
    DecimalIsNumeral(b.pid);
    FindAt(a.incarnation, COLON, |Decimal(a.pid)|);
    FindAt(b.incarnation, COLON, |Decimal(b.pid)|);
    assert Decimal(a.pid) == a.incarnation[..|Decimal(a.pid)|] == Decimal(b.pid);
    assert a.birthId == a.incarnation[|Decimal(a.pid)| + 1..];
    assert b.birthId == b.incarnation[|Decimal(b.pid)| + 1..];
  }

  class Cleanup {
    const currentPid: int
    const workers: seq<Worker>
    var identities: map<seq<Byte>, Identity>
    var order: seq<seq<Byte>>           // the keys of `identities`, in insertion order
    var attempted: set<seq<Byte>>
    var unresolved: set<Tag>
    var unowned: set<int>
    var residualScanOk: bool
    var residualProcesses: nat
    var events: seq<Event>

    constructor (currentPid: int, workers: seq<Worker>)
      requires forall w :: w in workers && w.pid.Pid? ==> SafePid(w.pid.pid)
      ensures this.currentPid == currentPid && this.workers == workers && Fresh()
    {
      this.currentPid, this.workers := currentPid, workers;
      identities, order, attempted, unresolved, unowned := map[], [], {}, {}, {};
      residualScanOk, residualProcesses, events := true, 0, [];
    }

    predicate Fresh()
      reads this
    {
      && identities == map[] && order == [] && attempted == {} && unresolved == {} && unowned == {}
      && residualScanOk && events == []
    }

    function SpawnedPids(): set<int> {
      set w | w in workers && w.pid.Pid? :: w.pid.pid
    }

    /** A worker that reported its pid together with a sound identity of that very process. */
    predicate SpawnedAs(w: Worker, identity: Identity) {
      w.pid == Pid(identity.pid) && w.identity.Some? && Like(w.identity.value)
      && w.identity.value.pid == identity.pid && w.identity.value.incarnation == identity.incarnation
    }

    /** An identity the clean-up may act on. */
    ghost predicate Ours(identity: Identity) {
      && Like(identity) && identity.pid != currentPid
      && (identity.pid in SpawnedPids() ==> exists w :: w in workers && SpawnedAs(w, identity))
    }

    ghost predicate Known()
      reads this`identities, this`order
    {
      && (forall k :: k in identities <==> k in order)
      && (forall k :: k in identities ==> identities[k].incarnation == k && Ours(identities[k]))
    }

    /** Each incarnation is killed at most once, and only ours. */
    ghost predicate KillsOnce(events: seq<Event>, attempted: set<seq<Byte>>) {
      && (forall i :: 0 <= i < |events| && events[i].Kill? ==> Ours(events[i].identity) && events[i].identity.incarnation in attempted)
      && (forall i, j :: 0 <= i < j < |events| && events[i].Kill? && events[j].Kill? ==>
            events[i].identity.incarnation != events[j].identity.incarnation)
    }

    /** At position i an incarnation was checked and, unless dead, killed at once. */
    predicate TriedAt(events: seq<Event>, i: nat, incarnation: seq<Byte>) {
      && i < |events| && events[i].Check? && events[i].incarnation == incarnation
      && (events[i].answer.Dead?
          || (i + 1 < |events| && events[i + 1].Kill? && events[i + 1].identity.incarnation == incarnation))
    }

    ghost predicate Tried(events: seq<Event>, attempted: set<seq<Byte>>) {
      forall k :: k in attempted ==> exists i: nat :: TriedAt(events, i, k)
    }

    function ScanCount(events: seq<Event>): nat {
      if events == [] then 0 else ScanCount(events[..|events| - 1]) + if events[|events| - 1].Scan? then 1 else 0
    }

    lemma {:induction false} ScansAdd(events: seq<Event>, more: seq<Event>)
      ensures ScanCount(events + more) == ScanCount(events) + ScanCount(more)
      decreases |more|
    {
      if more == [] {
        assert events + more == events;
      } else {
        assert (events + more)[..|events + more| - 1] == events + more[..|more| - 1];
        ScansAdd(events, more[..|more| - 1]);
      }
    }

    lemma {:induction false} NoScans(events: seq<Event>)
      requires forall e :: e in events ==> !e.Scan?
      ensures ScanCount(events) == 0
    {
      if events != [] {
        assert events[|events| - 1] in events;
        NoScans(events[..|events| - 1]);
      }
    }

    /** Every process record a scan found has been tried. */
    ghost predicate FoundTried(events: seq<Event>, attempted: set<seq<Byte>>) {
      forall e, v :: e in events && e.Scan? && e.found.Some? && v in e.found.value && v.Record? ==>
        v.identity.incarnation in attempted
    }

    lemma TriedGrows(events: seq<Event>, more: seq<Event>, attempted: set<seq<Byte>>)
      requires Tried(events, attempted)
      ensures Tried(events + more, attempted)
    {
      forall k | k in attempted ensures exists i: nat :: TriedAt(events + more, i, k) {
        var i: nat :| TriedAt(events, i, k);
        assert TriedAt(events + more, i, k);
      }
    }

    /** No scan failed, no kill failed, no liveness check failed. */
    ghost predicate NoneFailed(events: seq<Event>) {
      forall e :: e in events ==>
        match e
        case Scan(found) => found.Some?
        case Check(_, answer) => !answer.Unknown?
        case Kill(_, ok) => ok
    }

    /** A discovered process that is accounted for: a record whose incarnation is known, or the
        pid of a started worker or of a known identity. */
    ghost predicate Seen(value: Discovered)
      reads this`identities
    {
      match value
      case Record(identity) => Like(identity) && identity.incarnation in identities
      case Number(pid) => pid.Some? && (pid.value in SpawnedPids() || exists k :: k in identities && identities[k].pid == pid.value)
    }

    ghost predicate AllSeen(events: seq<Event>)
      reads this`identities
    {
      forall e, v :: e in events && e.Scan? && e.found.Some? && v in e.found.value ==> Seen(v)
    }

    ghost predicate Valid()
      reads this
    {
      Known() && KillsOnce(events, attempted) && (residualScanOk ==> NoneFailed(events) && AllSeen(events))
    }

    /** What was known stays known, under the same pid. */
    twostate predicate Kept()
      reads this`identities
    {
      forall k :: k in old(identities) ==> k in identities && identities[k].pid == old(identities)[k].pid
    }

    method Record(e: Event)
      requires Valid() && !e.Kill? && (residualScanOk ==> NoneFailed([e]) && AllSeen([e]))
      modifies this`events
      ensures Valid() && events == old(events) + [e]
    {
      assert e in [e];
      events := events + [e];
    }

    /** addIdentity */
    method AddIdentity(identity: Identity)
      requires Valid()
      requires Like(identity) && identity.pid in SpawnedPids() ==> exists w :: w in workers && SpawnedAs(w, identity)
      modifies this`identities, this`order, this`residualScanOk, this`unresolved
      ensures Valid() && (residualScanOk ==> old(residualScanOk)) && old(unresolved) <= unresolved
      ensures Kept()
      ensures residualScanOk ==> Like(identity) && identity.pid != currentPid && identity.incarnation in identities
                                 && identities[identity.incarnation].pid == identity.pid
    {
      hide Like, KillsOnce, NoneFailed;
      if !Like(identity) || identity.pid == currentPid {
        residualScanOk := false;
        if SafePid(identity.pid) {
          unresolved := unresolved + {PidTag(identity.pid)};
        }
        return;
      }
      if identity.incarnation !in identities {
        order := order + [identity.incarnation];
      } else {
        IncarnationIsInjective(identity, identities[identity.incarnation]);
      }
      identities := identities[identity.incarnation := identity];
      forall v: Discovered | old(Seen(v)) ensures Seen(v) {
        if v.Number? && v.pid.value !in SpawnedPids() {
          var k :| k in old(identities) && old(identities)[k].pid == v.pid.value;
          assert k in identities && identities[k].pid == v.pid.value;
        }
      }
    }

    /** A worker accounted for: no pid at all, or a sound identity that is known. */
    ghost predicate Accounted(w: Worker)
      reads this`identities
    {
      match w.pid
      case Absent => true
      case Invalid => false
      case Pid(pid) =>
        && w.identity.Some? && Like(w.identity.value) && w.identity.value.pid == pid && pid != currentPid
        && w.identity.value.incarnation in identities
    }

    /** The checks of the started workers, before the first scan. */
    method AdmitWorkers()
      requires Fresh() && Valid()
      modifies this`identities, this`order, this`residualScanOk, this`unresolved, this`unowned
      ensures Valid()
      ensures residualScanOk ==> forall w :: w in workers ==> Accounted(w)
      ensures unowned <= SpawnedPids()
    {
      hide KillsOnce, NoneFailed, Known, Like;
      var k := 0;
      while k < |workers|
        invariant 0 <= k <= |workers|
        invariant Valid()
        invariant residualScanOk ==> forall i :: 0 <= i < k ==> Accounted(workers[i])
        invariant unowned <= SpawnedPids()
      {
        var w := workers[k];
        match w.pid {
          case Absent =>
          case Invalid =>
            unresolved := unresolved + {InvalidWorker(w.id)};
            residualScanOk := false;
          case Pid(pid) =>
            if w.identity.None? || !Like(w.identity.value) || w.identity.value.pid != pid {
              unowned := unowned + {pid};
              unresolved := unresolved + {PidTag(pid)};
              residualScanOk := false;
            } else {
              assert SpawnedAs(w, w.identity.value);
              AddIdentity(w.identity.value);
            }
        }
        k := k + 1;
      }
    }

    /** The first known identity with a given pid. */
    method FirstWithPid(pid: int) returns (r: Option<Identity>)
      requires Known()
      ensures r.Some? ==> r.value.pid == pid && r.value.incarnation in identities && Ours(r.value)
    {
      hide Ours;
      r := None;
      var i := 0;
      while i < |order| && r.None?
        invariant 0 <= i <= |order|
        invariant r.Some? ==> r.value.pid == pid && r.value.incarnation in identities && Ours(r.value)
      {
        assert order[i] in identities;
        if identities[order[i]].pid == pid {
          r := Some(identities[order[i]]);
        }
        i := i + 1;
      }
    }

    /** One discovered process. */
    method Discover(value: Discovered)
      requires Valid() && unowned <= SpawnedPids()
      modifies this`identities, this`order, this`residualScanOk, this`unresolved
      ensures Valid() && (residualScanOk ==> old(residualScanOk)) && old(unresolved) <= unresolved
      ensures Kept()
      ensures residualScanOk ==> Seen(value)
    {
      hide KillsOnce, NoneFailed, Like;
      if value.Record? && Like(value.identity) {
        if value.identity.pid in SpawnedPids() {
          var atSpawn := FirstWithPid(value.identity.pid);
          if atSpawn.None? || atSpawn.value.incarnation != value.identity.incarnation {
            unresolved := unresolved + {PidTag(value.identity.pid)};
            residualScanOk := false;
            return;
          }
          var w :| w in workers && SpawnedAs(w, atSpawn.value);
          assert SpawnedAs(w, value.identity);
        }
        AddIdentity(value.identity);
        return;
      }
      if value.Record? || value.pid.None? || value.pid.value <= 0 || value.pid.value == currentPid {
        residualScanOk := false;
        return;
      }
      var pid := value.pid.value;
      if pid in SpawnedPids() {
        if pid in unowned {
          unresolved := unresolved + {PidTag(pid)};
          residualScanOk := false;
        }
        return;
      }
      // captureIdentity answers with an identity of the pid asked for, with null, or throws
      var captured: Option<Identity> :| captured.Some? ==> captured.value.pid == pid;
      if captured.Some? {
        AddIdentity(captured.value);
      } else {
        unresolved := unresolved + {PidTag(pid)};
        residualScanOk := false;
      }
    }

    method ScanResiduals()
      requires Valid() && unowned <= SpawnedPids()
      modifies this`identities, this`order, this`residualScanOk, this`unresolved, this`events
      ensures Valid() && (residualScanOk ==> old(residualScanOk)) && old(unresolved) <= unresolved
      ensures Kept()
      ensures |events| == |old(events)| + 1 && events[..|old(events)|] == old(events) && events[|old(events)|].Scan?
    {
      hide Known, KillsOnce, Ours, NoneFailed, Like;
      // an unconfigured or throwing scan answers nothing
      var discovered: Option<seq<Discovered>> := *;
      if !discovered.Some? {
        residualScanOk := false;
        Record(Scan(None));
        return;
      }
      var values := discovered.value;
      var k := 0;
      while k < |values|
        invariant 0 <= k <= |values|
        invariant Valid() && (residualScanOk ==> old(residualScanOk)) && old(unresolved) <= unresolved
        invariant Kept()
        invariant events == old(events)
        invariant residualScanOk ==> forall i :: 0 <= i < k ==> Seen(values[i])
      {
        Discover(values[k]);
        k := k + 1;
      }
      ScanSucceeded(values);
      Record(Scan(Some(values)));
    }

    lemma ScanSucceeded(values: seq<Discovered>)
      ensures NoneFailed([Scan(Some(values))])
    {
    }

    /** identityIsAlive: a check that fails leaves a mark and does not count as dead. */
    method IdentityIsAlive(incarnation: seq<Byte>) returns (answer: Liveness)
      requires Valid()
      modifies this`residualScanOk, this`unresolved, this`events
      ensures Valid() && (residualScanOk ==> old(residualScanOk)) && old(unresolved) <= unresolved
      ensures events == old(events) + [Check(incarnation, answer)]
    {
      hide Known, KillsOnce;
      answer := *;
      if answer.Unknown? {
        residualScanOk := false;
        unresolved := unresolved + {IncarnationTag(incarnation)};
      }
      Record(Check(incarnation, answer));
    }

    /** The kill of one identity, once it is marked as attempted. */
    method KillTree(identity: Identity)
      requires Valid() && Ours(identity) && identity.incarnation in attempted
      requires forall e :: e in events && e.Kill? ==> e.identity.incarnation != identity.incarnation
      modifies this`residualScanOk, this`events
      ensures Valid() && (residualScanOk ==> old(residualScanOk))
      ensures |events| == |old(events)| + 1 && events[..|old(events)|] == old(events)
      ensures events[|old(events)|].Kill? && events[|old(events)|].identity == identity
    {
      hide Ours, Known;
      var ok: bool := *;
      residualScanOk := residualScanOk && ok;
      events := events + [Kill(identity, ok)];
    }

    /** One identity not attempted before: a check and, unless it is dead, a kill. */
    method StopOne(incarnation: seq<Byte>)
      requires Valid() && incarnation in identities && incarnation !in attempted && Tried(events, attempted)
      modifies this`attempted, this`residualScanOk, this`unresolved, this`events
      ensures Valid() && (residualScanOk ==> old(residualScanOk)) && old(unresolved) <= unresolved
      ensures attempted == old(attempted) + {incarnation} && Tried(events, attempted)
      ensures ScanCount(events) == old(ScanCount(events))
    {
      hide Ours, NoneFailed, AllSeen, Tried;
      assert forall e :: e in events && e.Kill? ==> e.identity.incarnation != incarnation;
      ghost var before := events;
      attempted := attempted + {incarnation};
      var answer := IdentityIsAlive(incarnation);
      if !answer.Dead? {
        KillTree(identities[incarnation]);
      }
      assert events == before + events[|before|..];
      ScansAdd(before, events[|before|..]);
      NoScans(events[|before|..]);
      TriedGrows(before, events[|before|..], old(attempted));
      assert TriedAt(events, |before|, incarnation);
      TriedOneMore(events, old(attempted), incarnation, |before|);
    }

    lemma TriedOneMore(events: seq<Event>, attempted: set<seq<Byte>>, incarnation: seq<Byte>, i: nat)
      requires Tried(events, attempted) && TriedAt(events, i, incarnation)
      ensures Tried(events, attempted + {incarnation})
    {
      forall k | k in attempted + {incarnation} ensures exists j: nat :: TriedAt(events, j, k) {
        if k == incarnation { assert TriedAt(events, i, k); }
      }
    }

    /** stopNewIdentities: every identity not attempted before is tried. */
    method StopNewIdentities()
      requires Valid() && Tried(events, attempted)
      modifies this`attempted, this`residualScanOk, this`unresolved, this`events
      ensures Valid() && (residualScanOk ==> old(residualScanOk)) && old(unresolved) <= unresolved
      ensures (forall k :: k in identities ==> k in attempted) && Tried(events, attempted)
      ensures ScanCount(events) == old(ScanCount(events))
    {
      hide Ours, NoneFailed, AllSeen, Tried, KillsOnce, ScanCount;
      var i := 0;
      while i < |order|
        invariant 0 <= i <= |order|
        invariant Valid() && (residualScanOk ==> old(residualScanOk)) && old(unresolved) <= unresolved
        invariant forall j :: 0 <= j < i ==> order[j] in attempted
        invariant Tried(events, attempted)
        invariant ScanCount(events) == old(ScanCount(events))
      {
        assert order[i] in identities;
        if order[i] !in attempted {
          StopOne(order[i]);
        }
        i := i + 1;
      }
    }

    /** The last count: how many known identities do not answer as dead. */
    method CountAlive() returns (alive: nat)
      requires Valid()
      modifies this`residualScanOk, this`unresolved, this`events
      ensures Valid() && (residualScanOk ==> old(residualScanOk)) && old(unresolved) <= unresolved
      ensures |old(events)| <= |events| && events[..|old(events)|] == old(events)
      ensures forall j :: |old(events)| <= j < |events| ==> events[j].Check?
      ensures alive == 0 ==> forall k :: k in identities ==> Check(k, Dead) in events[|old(events)|..]
    {
      hide Ours, NoneFailed, KillsOnce;
      alive := 0;
      var i := 0;
      while i < |order|
        invariant 0 <= i <= |order|
        invariant Valid() && (residualScanOk ==> old(residualScanOk)) && old(unresolved) <= unresolved
        invariant |old(events)| <= |events| && events[..|old(events)|] == old(events)
        invariant forall j :: |old(events)| <= j < |events| ==> events[j].Check?
        invariant alive == 0 ==> forall j :: 0 <= j < i ==> Check(order[j], Dead) in events[|old(events)|..]
      {
        ghost var before := events[|old(events)|..];
        var answer := IdentityIsAlive(order[i]);
        assert events[|old(events)|..] == before + [events[|events| - 1]];
        alive := if answer.Dead? then alive else alive + 1;
        i := i + 1;
      }
    }

    /** stopStartedWorkers. Whatever the system answers, each incarnation is killed at most once,
        never the current process, and a spawned pid only as the process that was spawned; each
        attempt is a check followed, unless it answers dead, by a kill. There are three scans, and
        what the first two find is tried (or the verdict is spoiled). A clean verdict means that
        every started worker with a pid was known by an exact identity, that every process a scan
        found is accounted for, that no scan, check or kill failed, and that every known identity
        answered dead after the last scan. */
    method StopStartedWorkers() returns (finalScan: nat)
      requires Fresh() && forall w :: w in workers && w.pid.Pid? ==> SafePid(w.pid.pid)
      modifies this
      ensures KillsOnce(events, attempted) && Tried(events, attempted)
      ensures residualScanOk ==> forall w :: w in workers && w.pid.Pid? ==> Accounted(w) && w.identity.value.incarnation in attempted
      ensures finalScan < |events| && events[finalScan].Scan?
      ensures forall j :: finalScan < j < |events| ==> events[j].Check?
      ensures ScanCount(events) == 3
      ensures residualScanOk ==> FoundTried(events[..finalScan], attempted)
      ensures (residualScanOk && residualProcesses == 0) ==>
                && (forall w :: w in workers ==> Accounted(w))
                && NoneFailed(events) && AllSeen(events) && unresolved == {}
                && (forall k :: k in identities ==> Check(k, Dead) in events[finalScan + 1..])
    {
      hide Ours, NoneFailed, KillsOnce, Like, Tried, AllSeen, ScanCount, FoundTried;
      EmptyRecord();
      AdmitWorkers();
      ScanAndStop();
      ScanAndStop();
      FoundAreTried();
      ghost var before := events;
      ScanResiduals();
      finalScan := |events| - 1;
      var alive := CountAlive();
      assert before == events[..finalScan];
      ScansAdd(before, events[finalScan..]);
      ScansAdd([events[finalScan]], events[finalScan + 1..]);
      assert events[finalScan..] == [events[finalScan]] + events[finalScan + 1..];
      NoScans(events[finalScan + 1..]);
      OneScan(events[finalScan]);
      residualProcesses := alive + |unresolved|;
      assert events == before + events[|before|..];
      TriedGrows(before, events[|before|..], attempted);
      assert residualScanOk ==> forall w :: w in workers ==> Accounted(w);
    }

    method ScanAndStop()
      requires Valid() && Tried(events, attempted) && unowned <= SpawnedPids()
      modifies this`identities, this`order, this`attempted, this`residualScanOk, this`unresolved, this`events
      ensures Valid() && (residualScanOk ==> old(residualScanOk)) && old(unresolved) <= unresolved
      ensures Kept() && Tried(events, attempted) && forall k :: k in identities ==> k in attempted
      ensures ScanCount(events) == old(ScanCount(events)) + 1
    {
      hide Ours, NoneFailed, KillsOnce, Tried, AllSeen, Known;
      ghost var before := events;
      ScanResiduals();
      assert events == before + [events[|before|]];
      TriedGrows(before, [events[|before|]], attempted);
      ScansAdd(before, [events[|before|]]);
      assert ScanCount([events[|before|]]) == 1;
      StopNewIdentities();
    }

    lemma OneScan(e: Event)
      ensures ScanCount([e]) == if e.Scan? then 1 else 0
    {
      assert [e][..0] == [];
    }

    lemma FoundAreTried()
      requires forall k :: k in identities ==> k in attempted
      ensures AllSeen(events) ==> FoundTried(events, attempted)
    {
      if AllSeen(events) {
        forall e, v | e in events && e.Scan? && e.found.Some? && v in e.found.value && v.Record?
          ensures v.identity.incarnation in attempted
        {
          assert Seen(v);
        }
      }
    }

    lemma EmptyRecord()
      ensures NoneFailed([]) && KillsOnce([], {}) && AllSeen([]) && Tried([], {}) && ScanCount([]) == 0
    {
    }
  }
}
