/** One promotion run from its first call to its result, seen from what it makes on disk:
    which of its own artifacts exist, which of them its flags know about, and what a
    failure anywhere leaves behind.  How each call ends is an input; the run is written
    out as the program does it and proved to end as a function of that input says. */
module PromotionRollback {
  import opened Receipts

  /** Files that are written together with an owner marker. */
  datatype File = Candidate | Draft | Receipt

  /** What a run can make; Hidden is a private directory (a clean-up container or an
      unpublished lock) that was left behind, empty or not. */
  datatype Artifact = Staging | RunDirectory | RunLock | ManifestLock | Data(file: File) | Marker(file: File) | Hidden

  /** What a failed call did: nothing; it left a private directory and its object in place;
      it left its object in a private directory; it took full effect. */
  datatype Effect = Nothing | Box | Isolated | Applied

  /** How a call ends.  `loud` says that the error carries committed = true, where the
      program leaves that open. */
  datatype Fate = Good | Bad(effect: Effect, loud: bool)

  datatype Mode = ProviderOnly | IntoExisting | Whole

  /** The flags of promoteLiveReleaseEvidenceInternal. */
  datatype Flags = Flags(staging: bool, run: bool, draft: bool, receipt: bool, runLock: bool, manifestLock: bool)

  /** The disk, the pairs whose marker cannot be read, the state in the receipt, how the
      calls to come will end (past the end they succeed), and whether some error so far
      carries committed = true. */
  datatype World = World(disk: set<Artifact>, torn: set<File>, saved: ReceiptState, fates: seq<Fate>, loud: bool)

  datatype Did = Did(world: World, ok: bool)

  /** `quiet`: it failed with an error that does not say committed. */
  datatype Tried = Tried(world: World, ok: bool, quiet: bool)
  {
    function Done(): Did { Did(world, ok) }
  }

  /** Clean-up actions so far, with the number of those that failed. */
  datatype Count = Count(world: World, failures: nat)

  datatype Result = Result(ok: bool, committed: bool, residuals: nat, cleanupFailures: nat)

  // ---- Calls ----

  /** Which errors carry committed = true: raw errors never do; an owner marker or a receipt
      that was being written always; moves and checks can. */
  datatype Kind = Plain | Marking | Moving | Checking

  predicate Loud(kind: Kind, fate: Fate) {
    fate.Bad? &&
    match kind
    case Plain => false
    case Marking => !fate.effect.Nothing?
    case Moving => fate.loud && !fate.effect.Nothing?
    case Checking => fate.loud
  }

  function Drop(fates: seq<Fate>, n: nat): seq<Fate> {
    if n <= |fates| then fates[n..] else []
  }

  function FateAt(fates: seq<Fate>, k: nat): Fate {
    if k < |fates| then fates[k] else Good
  }

  predicate AllGood(fates: seq<Fate>, n: nat) {
    forall i :: 0 <= i < n ==> FateAt(fates, i).Good?
  }

  lemma DropFirst(fates: seq<Fate>, k: nat)
    ensures FateAt(Drop(fates, k), 0) == FateAt(fates, k)
    ensures Drop(Drop(fates, k), 1) == Drop(fates, k + 1)
  {
  }

  lemma DropAgain(fates: seq<Fate>, k: nat, m: nat)
    ensures FateAt(Drop(fates, k), m) == FateAt(fates, k + m)
    ensures Drop(Drop(fates, k), m) == Drop(fates, k + m)
  {
  }

  function Next(w: World): Fate {
    FateAt(w.fates, 0)
  }

  function After(w: World, kind: Kind): World {
    w.(fates := Drop(w.fates, 1), loud := w.loud || Loud(kind, Next(w)))
  }

  function Pair(file: File): set<Artifact> {
    {Data(file), Marker(file)}
  }

  // ---- What the operations do, as functions of the fates ----

  /** A removal through a clean-up container (removeOwnedDirectory, releaseDirectoryLock,
      removeCreatedFileAfterIsolation); an absent target is fine. */
  function Removal(w: World, a: Artifact): Tried {
    if a !in w.disk then Tried(w, true, false)
    else Tried(After(w, Moving).(disk := Removed(w.disk, a, Next(w))), Next(w).Good?, Next(w).Bad? && !Loud(Moving, Next(w)))
  }

  function Removed(disk: set<Artifact>, a: Artifact, fate: Fate): set<Artifact> {
    if fate.Good? || fate.effect.Applied? then disk - {a}
    else if fate.effect.Nothing? then disk
    else if fate.effect.Box? then disk + {Hidden}
    else disk - {a} + {Hidden}
  }

  /** initializeDirectoryLock: a private directory, renamed into place.  Box leaves that
      directory with its removal refused, Isolated leaves it to be removed by one more call. */
  function Locking(w: World, a: Artifact): Did {
    var fate, v := Next(w), After(w, Moving);
    if fate.Good? then Did(v.(disk := w.disk + {a}), true)
    else if fate.effect.Nothing? then Did(v, false)
    else if fate.effect.Box? then Did(v.(disk := w.disk + {Hidden}), false)
    else if fate.effect.Applied? then Did(v.(disk := w.disk + {a}), false)
    else Did(After(v, Moving).(disk := if Gone(Next(v)) then w.disk else w.disk + {Hidden}), false)
  }

  /** The object of a removal that ended so is gone without trace. */
  predicate Gone(fate: Fate) {
    fate.Good? || fate.effect.Applied?
  }

  /** One try of removeOwnedFile: data and marker are moved into containers of their own,
      then read back and destroyed. */
  function Attempt(w: World, file: File): Tried {
    if Data(file) !in w.disk && Marker(file) !in w.disk then Tried(w, true, false)
    else if Marker(file) !in w.disk || file in w.torn then Tried(w, false, true)
    else if Data(file) !in w.disk then MarkerAside(w, file, false)
    else if Next(w).Good? then MarkerAside(After(w, Moving).(disk := w.disk - {Data(file)}), file, true)
    else Tried(After(w, Moving).(disk := MovedAside(w.disk, Data(file), Next(w).effect)), false, !Loud(Moving, Next(w)))
  }

  function MovedAside(disk: set<Artifact>, a: Artifact, effect: Effect): set<Artifact> {
    if effect.Nothing? then disk
    else if effect.Box? then disk + {Hidden}
    else disk - {a} + {Hidden}
  }

  /** The marker follows; `aside` says that the data is in its container. */
  function MarkerAside(w: World, file: File, aside: bool): Tried {
    if Next(w).Good? then Destruction(After(w, Moving).(disk := w.disk - {Marker(file)}))
    else Tried(After(w, Moving).(disk := MovedAside(w.disk, Marker(file), Next(w).effect) + (if aside then {Hidden} else {})),
               false, !Loud(Moving, Next(w)))
  }

  /** Both are isolated: read the marker back, then destroy them. */
  function Destruction(w: World): Tried {
    Tried(After(w, Moving).(disk := if Gone(Next(w)) then w.disk else w.disk + {Hidden}),
          Next(w).Good?, Next(w).Bad? && !Loud(Moving, Next(w)))
  }

  /** retryOwnedFileCleanup: a second try, unless the first says committed. */
  function OwnedRemoval(w: World, file: File): Did {
    var first := Attempt(w, file);
    if first.quiet then Attempt(first.world, file).Done() else first.Done()
  }

  /** copyOwnedFileExclusive, writeOwnedJsonExclusive: the data, then its owner marker. */
  function OwnedWriting(w: World, file: File): Did {
    if Next(w).Good? then MarkerWriting(After(w, Plain).(disk := w.disk + {Data(file)}), file)
    else Did(After(w, Plain).(disk := if Next(w).effect.Nothing? then w.disk else w.disk + {Data(file)}), false)
  }

  /** If the marker fails, the data goes, then what is left of the pair, and a last look asks
      whether both are gone; a marker that was created but not completed (Box, Isolated)
      cannot be read. */
  function MarkerWriting(w: World, file: File): Did {
    var fate, v := Next(w), After(w, Plain);
    if fate.Good? then Did(v.(disk := w.disk + {Marker(file)}), true)
    else Did(Looked(Unwriting(v.(disk := if fate.effect.Nothing? then w.disk else w.disk + {Marker(file)},
                                 torn := if Half(fate) then w.torn + {file} else w.torn), file), w.loud), false)
  }

  /** That look: if it fails itself, its raw error replaces those of the clean-up. */
  function Looked(w: World, loudBefore: bool): World {
    After(w, Plain).(loud := if Next(w).Good? then w.loud else loudBefore)
  }

  /** A write that stopped half way. */
  predicate Half(fate: Fate) {
    fate.Bad? && (fate.effect.Box? || fate.effect.Isolated?)
  }

  function Unwriting(w: World, file: File): World {
    var v := Removal(w, Data(file)).world;
    if Marker(file) in v.disk then OwnedRemoval(v, file).world else v
  }

  /** updateCleanupReceipt: the data, then the copy in the owner marker. */
  function Updating(w: World, state: ReceiptState): Did {
    if Receipt in w.torn then Did(w, false)
    else
      var fate := Next(w);
      Did(After(w, Marking).(torn := if Half(fate) then w.torn + {Receipt} else w.torn,
                             saved := if Gone(fate) then state else w.saved), fate.Good?)
  }

  // ---- The run up to its commit ----

  function Length(mode: Mode): nat {
    if mode.ProviderOnly? then 9 else 16
  }

  /** The calls of an undisturbed run: 0 staging directory, 1 its owner marker, 2 bundles,
      3 run lock, 4 checks under it, 5 and 6 receipt and its marker, 7 to 9 placement,
      10 and 11 candidate and its marker, 12 verification, 13 intent, 14 manifest lock,
      15 the rename that commits (8 in a provider-only run). */
  function Made(mode: Mode, k: nat): set<Artifact> {
    if k == 0 then {} else Make(mode, k - 1, Made(mode, k - 1))
  }

  /** Call `k` succeeds. */
  function Make(mode: Mode, k: nat, disk: set<Artifact>): set<Artifact> {
    if k == 0 then disk + {Staging}
    else if k == 3 then disk + {RunLock}
    else if k == 5 then disk + {Data(Receipt)}
    else if k == 6 then disk + {Marker(Receipt)}
    else if k == 7 && mode.IntoExisting? then disk + {Data(Draft)}
    else if k == 8 && mode.IntoExisting? then disk + {Marker(Draft)}
    else if k == 8 then disk - {Staging} + {RunDirectory}
    else if k == 9 && mode.IntoExisting? then disk - {Staging}
    else if k == 10 then disk + {Data(Candidate)}
    else if k == 11 then disk + {Marker(Candidate)}
    else if k == 14 then disk + {ManifestLock}
    else if k == 15 then disk - {Data(Candidate)}
    else disk
  }

  /** The same, artifact by artifact. */
  predicate Expected(mode: Mode, k: nat, a: Artifact) {
    match a
    case Staging => 1 <= k <= (if mode.IntoExisting? then 9 else 8)
    case RunLock => 4 <= k
    case Data(Receipt) => 6 <= k
    case Marker(Receipt) => 7 <= k
    case RunDirectory => 9 <= k && !mode.IntoExisting?
    case Data(Draft) => 8 <= k && mode.IntoExisting?
    case Marker(Draft) => 9 <= k && mode.IntoExisting?
    case Data(Candidate) => 11 <= k <= 15
    case Marker(Candidate) => 12 <= k
    case ManifestLock => 15 <= k
    case Hidden => false
  }

  lemma {:induction false} InMade(mode: Mode, k: nat, a: Artifact)
    ensures a in Made(mode, k) <==> Expected(mode, k, a)
  {
    if k > 0 {
      InMade(mode, k - 1, a);
    }
  }

  function Recorded(mode: Mode, k: nat): Flags {
    Flags(2 <= k <= (if mode.IntoExisting? then 9 else 8), 9 <= k && !mode.IntoExisting?, 9 <= k && mode.IntoExisting?,
          7 <= k, 4 <= k, 15 <= k)
  }

  function KindOf(mode: Mode, k: nat): Kind {
    if k == 1 || k == 13 then Marking
    else if k == 3 || k == 14 || (k == 9 && mode.IntoExisting?) then Moving
    else if k == 4 then Checking
    else Plain
  }

  predicate Passes(refused: bool, script: seq<Fate>, k: nat) {
    FateAt(script, k).Good? && !(refused && k == 4)
  }

  /** The first call that fails, or at which the checks refuse; Length if none does. */
  function Stop(mode: Mode, refused: bool, script: seq<Fate>, k: nat := 0): (stop: nat)
    ensures k <= Length(mode) ==> k <= stop <= Length(mode)
    decreases Length(mode) - k
  {
    if k >= Length(mode) then Length(mode)
    else if !Passes(refused, script, k) then k
    else Stop(mode, refused, script, k + 1)
  }

  /** Just before call `k`, when all before it succeeded. */
  function Before(mode: Mode, script: seq<Fate>, k: nat): World {
    World(Made(mode, k), {}, if mode.ProviderOnly? || 14 <= k then CommitIntent else Prepared, Drop(script, k), false)
  }

  /** The failing call `k`, with what it does itself about its failure. */
  function Fault(mode: Mode, k: nat, w: World): World {
    if k == 0 then After(w, Plain).(disk := if Next(w).Bad? && !Next(w).effect.Nothing? then {Staging} else {})
    else if k == 3 then Locking(w, RunLock).world
    else if k == 5 then OwnedWriting(w, Receipt).world
    else if k == 6 then MarkerWriting(w, Receipt).world
    else if k == 7 && mode.IntoExisting? then OwnedWriting(w, Draft).world
    else if k == 8 && mode.IntoExisting? then MarkerWriting(w, Draft).world
    else if k == 9 && mode.IntoExisting? then Removal(w, Staging).world
    else if k == 10 then OwnedWriting(w, Candidate).world
    else if k == 11 then MarkerWriting(w, Candidate).world
    else if k == 13 then Updating(w, CommitIntent).world
    else if k == 14 then Locking(w, ManifestLock).world
    else After(w, KindOf(mode, k))
  }

  // ---- Rollback ----

  datatype Target = Entry(a: Artifact) | Owned(file: File)

  function Undo(t: Target, w: World): Did {
    match t
    case Entry(a) => Removal(w, a).Done()
    case Owned(file) => OwnedRemoval(w, file)
  }

  function Tally(did: Did, failures: nat): Count {
    Count(did.world, if did.ok then failures else failures + 1)
  }

  function Acted(condition: bool, t: Target, c: Count): Count {
    if condition then Tally(Undo(t, c.world), c.failures) else c
  }

  /** The rollback before the receipt's turn. */
  function Worked(mode: Mode, flags: Flags, w: World): Count {
    var a := Acted(true, Owned(Candidate), Count(w, 0));
    var b := Acted(flags.manifestLock, Entry(ManifestLock), a);
    var c := Acted(flags.draft, Owned(Draft), b);
    var d := Acted(flags.run && !mode.ProviderOnly?, Entry(RunDirectory), c);
    Acted(flags.staging, Entry(Staging), d)
  }

  /** The receipt goes only if everything before succeeded; the run lock always. */
  function RolledBack(mode: Mode, flags: Flags, w: World): Count {
    var worked := Worked(mode, flags, w);
    var c := Acted(flags.receipt && worked.failures == 0, Owned(Receipt), worked);
    Acted(flags.runLock, Entry(RunLock), c)
  }

  // ---- After the commit ----

  /** releaseRenamedOwnedFileMarker under retryCleanupAction. */
  function ReleaseWithRetry(w: World, file: File): Did {
    var first := Removal(w, Marker(file));
    if first.quiet then Removal(first.world, Marker(file)).Done() else first.Done()
  }

  /** cleanupCommittedReceipt with the locks held. */
  function CleanedUp(mode: Mode, w: World): Count {
    var a := Tally(Updating(w, CleanupRequired), 0);
    var b := if a.failures == 0 && !mode.ProviderOnly? then Tally(ReleaseWithRetry(a.world, Candidate), 0) else a;
    Unlocked(mode, b)
  }

  /** The rest of it, after the candidate's marker. */
  function Unlocked(mode: Mode, b: Count): Count {
    var c := if b.failures == 0 && mode.IntoExisting? then Tally(Removal(b.world, Marker(Draft)).Done(), 0) else b;
    var d := if !mode.ProviderOnly? then Tally(Removal(c.world, ManifestLock).Done(), c.failures) else c;
    Tally(Updating(d.world, if d.failures == 0 then CommittedClean else CleanupRequired), d.failures)
  }

  /** What follows the commit rename, whether or not its durability is certain. */
  function Settled(mode: Mode, w: World): Count {
    var a := CleanedUp(mode, After(w, Plain));
    var b := if Next(w).Good? then a else Tally(Updating(a.world, CleanupRequired), a.failures + 1);
    Tally(Removal(b.world, RunLock).Done(), b.failures)
  }

  // ---- The whole run, as a function of its inputs ----

  datatype Ending = Ending(world: World, committed: bool, result: Result)

  function EndOf(mode: Mode, refused: bool, script: seq<Fate>): Ending {
    var k := Stop(mode, refused, script);
    if k == Length(mode) then
      var c := Settled(mode, Before(mode, script, k));
      Ending(c.world, true, Result(c.failures == 0, true, c.failures, 0))
    else
      var c := RolledBack(mode, Recorded(mode, k), Fault(mode, k, Before(mode, script, k)));
      Ending(c.world, false, Result(false, c.world.loud, 0, c.failures))
  }

  // ---- The program ----

  class PromotionRun {
    const mode: Mode
    const refused: bool           // a check under the run lock refuses the promotion
    const script: seq<Fate>       // how the calls end, in order
    var fates: seq<Fate>          // those of the calls still to come
    var disk: set<Artifact>       // what this run has made and not removed
    var torn: set<File>           // pairs whose marker cannot be read
    var saved: ReceiptState       // the state in the receipt on disk
    var committed: bool           // the commit rename has run
    var loud: bool                // some error carries committed = true
    var rollbackActions: nat      // rollback actions that were executed
    // the flags of promoteLiveReleaseEvidenceInternal
    var stagingActive: bool
    var runPublished: bool
    var draftPublished: bool
    var receiptWritten: bool
    var runLockHeld: bool
    var manifestLockHeld: bool

    constructor (mode: Mode, refused: bool, script: seq<Fate>)
      ensures this.mode == mode && this.refused == refused && this.script == script && AtCall(0)
    {
      this.mode, this.refused, this.script, fates := mode, refused, script, script;
      disk, torn, saved := {}, {}, if mode.ProviderOnly? then CommitIntent else Prepared;
      committed, loud, rollbackActions := false, false, 0;
      stagingActive, runPublished, draftPublished, receiptWritten := false, false, false, false;
      runLockHeld, manifestLockHeld := false, false;
    }

    function Here(): World
      reads this
    {
      World(disk, torn, saved, fates, loud)
    }

    function FlagsNow(): Flags
      reads this
    {
      Flags(stagingActive, runPublished, draftPublished, receiptWritten, runLockHeld, manifestLockHeld)
    }

    /** Nothing has failed and call `k` is next. */
    ghost predicate AtCall(k: nat)
      reads this
    {
      && k <= Length(mode) && Stop(mode, refused, script) == Stop(mode, refused, script, k)
      && Here() == Before(mode, script, k) && FlagsNow() == Recorded(mode, k)
      && committed == (k == Length(mode)) && rollbackActions == 0
    }

    /** A call before the commit has failed. */
    ghost predicate Stopped()
      reads this
    {
      var k := Stop(mode, refused, script);
      && k < Length(mode) && !committed && rollbackActions == 0
      && Here() == Fault(mode, k, Before(mode, script, k)) && FlagsNow() == Recorded(mode, k)
    }

    // ---- Single calls ----

    method Call(kind: Kind) returns (fate: Fate)
      modifies this`fates, this`loud
      ensures fate == Next(old(Here())) && Here() == After(old(Here()), kind)
    {
      fate := FateAt(fates, 0);
      fates, loud := Drop(fates, 1), loud || Loud(kind, fate);
    }

    /** removeOwnedDirectory, releaseDirectoryLock, removeCreatedFileAfterIsolation; `again`
        says that the error does not say committed. */
    method RemoveEntry(a: Artifact) returns (ok: bool, again: bool)
      modifies this`disk, this`fates, this`loud
      ensures Tried(Here(), ok, again) == Removal(old(Here()), a)
    {
      if a !in disk {
        return true, false;
      }
      var fate := Call(Moving);
      ok, again := fate.Good?, fate.Bad? && !Loud(Moving, fate);
      if Gone(fate) || fate.effect.Isolated? {
        disk := disk - {a};
      }
      if Half(fate) {
        disk := disk + {Hidden};
      }
    }

    /** initializeDirectoryLock */
    method TakeLock(a: Artifact) returns (ok: bool)
      modifies this`disk, this`fates, this`loud
      ensures Did(Here(), ok) == Locking(old(Here()), a)
    {
      var fate := Call(Moving);
      ok := fate.Good?;
      if Gone(fate) {
        disk := disk + {a};
      } else if fate.effect.Box? {
        disk := disk + {Hidden};
      } else if fate.effect.Isolated? {
        var undo := Call(Moving);
        if !Gone(undo) {
          disk := disk + {Hidden};
        }
      }
    }

    /** One try of removeOwnedFile. */
    method TryRemoveOwned(file: File) returns (ok: bool, again: bool)
      modifies this`disk, this`fates, this`loud
      ensures Tried(Here(), ok, again) == Attempt(old(Here()), file)
    {
      if Data(file) !in disk && Marker(file) !in disk {
        return true, false;
      }
      if Marker(file) !in disk || file in torn {
        return false, true;
      }
      var aside := Data(file) in disk;
      if aside {
        var moved := Call(Moving);
        if !moved.Good? {
          disk := MovedAside(disk, Data(file), moved.effect);
          return false, !Loud(Moving, moved);
        }
        disk := disk - {Data(file)};
      }
      var moved := Call(Moving);
      if !moved.Good? {
        disk := MovedAside(disk, Marker(file), moved.effect) + (if aside then {Hidden} else {});
        return false, !Loud(Moving, moved);
      }
      disk := disk - {Marker(file)};
      var destroyed := Call(Moving);
      if !Gone(destroyed) {
        disk := disk + {Hidden};
      }
      ok, again := destroyed.Good?, destroyed.Bad? && !Loud(Moving, destroyed);
    }

    /** retryOwnedFileCleanup */
    method RemoveOwned(file: File) returns (ok: bool)
      modifies this`disk, this`fates, this`loud
      ensures Did(Here(), ok) == OwnedRemoval(old(Here()), file)
    {
      hide Attempt;
      var again: bool;
      ok, again := TryRemoveOwned(file);
      if again {
        ok, again := TryRemoveOwned(file);
      }
    }

    /** copyOwnedFileExclusive, writeOwnedJsonExclusive */
    method WriteOwned(file: File) returns (ok: bool)
      modifies this`disk, this`torn, this`fates, this`loud
      ensures Did(Here(), ok) == OwnedWriting(old(Here()), file)
    {
      hide MarkerWriting;
      var data := Call(Plain);
      if data.Good? || !data.effect.Nothing? {
        disk := disk + {Data(file)};
      }
      ok := data.Good?;
      if ok {
        ok := WriteMarker(file);
      }
    }

    /** writeOwnedFileMarker, and what its callers do when it fails */
    method WriteMarker(file: File) returns (ok: bool)
      modifies this`disk, this`torn, this`fates, this`loud
      ensures Did(Here(), ok) == MarkerWriting(old(Here()), file)
    {
      hide OwnedRemoval, Removal;
      var before := loud;
      var marker := Call(Plain);
      ok := marker.Good?;
      if ok || !marker.effect.Nothing? {
        disk := disk + {Marker(file)};
      }
      if Half(marker) {
        torn := torn + {file};
      }
      if !ok {
        var undone, again := RemoveEntry(Data(file));
        if Marker(file) in disk {
          undone := RemoveOwned(file);
        }
        var look := Call(Plain);
        if !look.Good? {
          loud := before;
        }
      }
    }

    /** updateCleanupReceipt */
    method UpdateReceipt(state: ReceiptState) returns (ok: bool)
      modifies this`torn, this`saved, this`fates, this`loud
      ensures Did(Here(), ok) == Updating(old(Here()), state)
    {
      if Receipt in torn {
        return false;
      }
      var fate := Call(Marking);
      ok := fate.Good?;
      if Gone(fate) {
        saved := state;
      } else if Half(fate) {
        torn := torn + {Receipt};
      }
    }

    // ---- Up to the commit ----

    /** A call that makes nothing: a check, a sync, a verification. */
    method Step(k: nat) returns (ok: bool)
      requires AtCall(k) && k < Length(mode) && (k == 2 || k == 12 || (k == 9 && mode.Whole?))
      modifies this`fates, this`loud
      ensures if ok then AtCall(k + 1) else Stopped()
    {
      hide Made;
      OneCall(k);
      var fate := Call(Plain);
      ok := fate.Good?;
    }

    lemma MakeStep(k: nat)
      ensures Made(mode, k + 1) == Make(mode, k, Made(mode, k))
    {
    }

    lemma OneCall(k: nat)
      requires AtCall(k) && k < Length(mode)
      ensures Next(Here()) == FateAt(script, k)
      ensures Made(mode, k + 1) == Make(mode, k, Made(mode, k)) && Made(mode, 0) == {}
      ensures After(Here(), KindOf(mode, k)).fates == Drop(script, k + 1)
      ensures Next(Here()).Bad? || (refused && k == 4) ==> Stop(mode, refused, script) == k
      ensures Next(Here()).Good? && !(refused && k == 4) ==> Stop(mode, refused, script) == Stop(mode, refused, script, k + 1)
    {
      DropFirst(script, k);
    }

    method MakeStaging() returns (ok: bool)
      requires AtCall(0)
      modifies this`disk, this`fates, this`loud
      ensures if ok then AtCall(1) else Stopped()
    {
      hide Made;
      OneCall(0);
      var fate := Call(Plain);
      ok := fate.Good?;
      if ok || !fate.effect.Nothing? {
        disk := disk + {Staging};
      }
    }

    /** The staging directory's flag is set only once its owner marker is in. */
    method MarkStaging() returns (ok: bool)
      requires AtCall(1)
      modifies this`fates, this`loud, this`stagingActive
      ensures if ok then AtCall(2) else Stopped()
    {
      hide Made;
      OneCall(1);
      var fate := Call(Marking);
      ok := fate.Good?;
      stagingActive := ok;
    }

    method LockRun() returns (ok: bool)
      requires AtCall(3)
      modifies this`disk, this`fates, this`loud, this`runLockHeld
      ensures if ok then AtCall(4) else Stopped()
    {
      hide Made;
      OneCall(3);
      ok := TakeLock(RunLock);
      runLockHeld := ok;
    }

    /** An owned write at call `k`, once the flag for it is set. */
    method WriteAt(k: nat, file: File) returns (ok: bool)
      requires AtCall(k) && WriteCall(mode, k, file)
      modifies this`disk, this`torn, this`fates, this`loud, this`receiptWritten, this`draftPublished
      ensures if ok then AtCall(k + 2) else Stopped()
    {
      hide OwnedWriting, MarkerWriting, Fault, Made, Stop;
      Wrote(mode, refused, script, k, file);
      ok := WriteOwned(file);
      receiptWritten := receiptWritten || (ok && file.Receipt?);
      draftPublished := draftPublished || (ok && file.Draft?);
    }

    /** The checks under the run lock, and the receipt. */
    method Open() returns (ok: bool)
      requires AtCall(4)
      modifies this`disk, this`torn, this`fates, this`loud, this`receiptWritten, this`draftPublished
      ensures if ok then AtCall(7) else Stopped()
    {
      hide Made;
      OneCall(4);
      var fate := Call(Checking);
      if !fate.Good? || refused {
        return false;
      }
      assert AtCall(5);
      ok := WriteAt(5, Receipt);
    }

    /** Verify the staging directory's owner, then rename the directory. */
    method Place() returns (ok: bool)
      requires AtCall(7) && !mode.IntoExisting?
      modifies this`fates, this`loud
      ensures ok ==> Here() == Before(mode, script, 9).(disk := Made(mode, 8))
      ensures ok ==> Stop(mode, refused, script) == Stop(mode, refused, script, 9)
      ensures !ok ==> Stopped()
    {
      hide Made;
      OneCall(7);
      var fate := Call(Plain);
      if !fate.Good? {
        return false;
      }
      assert AtCall(8);
      OneCall(8);
      fate := Call(Plain);
      ok := fate.Good?;
    }

    /** Provider-only: that rename is the commit. */
    method PlaceProvider() returns (ok: bool)
      requires AtCall(7) && mode.ProviderOnly?
      modifies this`disk, this`fates, this`loud, this`stagingActive, this`runPublished, this`committed
      ensures if ok then AtCall(9) else Stopped()
    {
      hide Made;
      ok := Place();
      if ok {
        MakeStep(8);
        disk := disk - {Staging} + {RunDirectory};
        stagingActive, runPublished, committed := false, true, true;
      }
    }

    /** A draft into an existing run directory. */
    method PlaceDraft() returns (ok: bool)
      requires AtCall(7) && mode.IntoExisting?
      modifies this`disk, this`torn, this`fates, this`loud, this`stagingActive, this`receiptWritten, this`draftPublished
      ensures if ok then AtCall(10) else Stopped()
    {
      hide AtCall, Stopped;
      ok := WriteAt(7, Draft);
      if ok {
        ok := DropStaging();
      }
    }

    method DropStaging() returns (ok: bool)
      requires AtCall(9) && mode.IntoExisting?
      modifies this`disk, this`fates, this`loud, this`stagingActive
      ensures if ok then AtCall(10) else Stopped()
    {
      hide Made;
      OneCall(9);
      InMade(mode, 9, Staging);
      var again: bool;
      ok, again := RemoveEntry(Staging);
      if ok {
        stagingActive := false;
      }
    }

    /** A whole run directory, by one rename of the staging directory. */
    method PlaceRun() returns (ok: bool)
      requires AtCall(7) && mode.Whole?
      modifies this`disk, this`fates, this`loud, this`stagingActive, this`runPublished
      ensures if ok then AtCall(10) else Stopped()
    {
      hide Made;
      ok := Place();
      if ok {
        MakeStep(8);
        disk := disk - {Staging} + {RunDirectory};
        stagingActive, runPublished := false, true;
        assert AtCall(9);
        ok := Step(9);
      }
    }

    /** The candidate, its verification, and the intent in the receipt. */
    method Prepare() returns (ok: bool)
      requires AtCall(10) && !mode.ProviderOnly?
      modifies this`disk, this`torn, this`saved, this`fates, this`loud, this`receiptWritten, this`draftPublished
      ensures if ok then AtCall(14) else Stopped()
    {
      hide AtCall, Stopped;
      ok := WriteAt(10, Candidate);
      if !ok {
        return;
      }
      ok := Step(12);                         // verifyLiveReleaseEvidenceFile
      if ok {
        ok := Intend();
      }
    }

    method Intend() returns (ok: bool)
      requires AtCall(13) && !mode.ProviderOnly?
      modifies this`torn, this`saved, this`fates, this`loud
      ensures if ok then AtCall(14) else Stopped()
    {
      hide Made;
      OneCall(13);
      ok := UpdateReceipt(CommitIntent);
    }

    method LockManifest() returns (ok: bool)
      requires AtCall(14) && !mode.ProviderOnly?
      modifies this`disk, this`fates, this`loud, this`manifestLockHeld
      ensures if ok then AtCall(15) else Stopped()
    {
      hide Made;
      OneCall(14);
      ok := TakeLock(ManifestLock);
      manifestLockHeld := ok;
    }

    /** One rename of the candidate over the manifest: the commit. */
    method Commit() returns (ok: bool)
      requires AtCall(15) && !mode.ProviderOnly?
      modifies this`disk, this`fates, this`loud, this`committed
      ensures if ok then AtCall(16) else Stopped()
    {
      hide Made;
      OneCall(15);
      var fate := Call(Plain);
      ok := fate.Good?;
      if ok {
        disk := disk - {Data(Candidate)};
        committed := true;
      }
    }

    /** Every step up to the commit rename. */
    method Publish() returns (ok: bool)
      requires AtCall(0)
      modifies this
      ensures if ok then AtCall(Length(mode)) else Stopped()
    {
      hide AtCall, Stopped;
      ok := MakeStaging();
      if !ok { return; }
      ok := MarkStaging();
      if !ok { return; }
      ok := Step(2);                          // the bundles
      if !ok { return; }
      ok := LockRun();
      if !ok { return; }
      ok := Open();
      if !ok { return; }
      match mode {
        case ProviderOnly => ok := PlaceProvider(); return;
        case IntoExisting => ok := PlaceDraft();
        case Whole => ok := PlaceRun();
      }
      if !ok { return; }
      ok := Prepare();
      if !ok { return; }
      ok := LockManifest();
      if !ok { return; }
      ok := Commit();
    }

    // ---- Rollback ----

    /** One rollback action. */
    method UndoOne(t: Target, failures: nat) returns (after: nat)
      modifies this`disk, this`fates, this`loud, this`rollbackActions
      ensures Count(Here(), after) == Tally(Undo(t, old(Here())), failures)
    {
      hide Removal, OwnedRemoval;
      rollbackActions := rollbackActions + 1;
      var ok, again: bool;
      match t {
        case Entry(a) => ok, again := RemoveEntry(a);
        case Owned(file) => ok := RemoveOwned(file);
      }
      after := if ok then failures else failures + 1;
    }

    /** The rollback actions before the receipt's turn; a flag is cleared whether or not its
        action succeeds. */
    method UndoWork() returns (failures: nat)
      modifies this`disk, this`fates, this`loud, this`rollbackActions, this`stagingActive, this`runPublished,
               this`draftPublished, this`manifestLockHeld
      ensures Count(Here(), failures) == Worked(mode, old(FlagsNow()), old(Here()))
    {
      hide Undo, Tally;
      failures := UndoOne(Owned(Candidate), 0);
      if manifestLockHeld { manifestLockHeld := false; failures := UndoOne(Entry(ManifestLock), failures); }
      if draftPublished { failures := UndoOne(Owned(Draft), failures); draftPublished := false; }
      if runPublished && !mode.ProviderOnly? { failures := UndoOne(Entry(RunDirectory), failures); runPublished := false; }
      if stagingActive { failures := UndoOne(Entry(Staging), failures); stagingActive := false; }
    }

    /** The rollback: how many actions failed, and how many of those before the receipt's turn. */
    method Rollback() returns (failures: nat, workFailures: nat)
      modifies this`disk, this`fates, this`loud, this`rollbackActions, this`stagingActive, this`runPublished,
               this`draftPublished, this`receiptWritten, this`runLockHeld, this`manifestLockHeld
      ensures Count(Here(), failures) == RolledBack(mode, old(FlagsNow()), old(Here()))
      ensures workFailures == Worked(mode, old(FlagsNow()), old(Here())).failures
    {
      hide Undo, Tally, Worked;
      workFailures := UndoWork();
      failures := workFailures;
      if receiptWritten && failures == 0 { failures := UndoOne(Owned(Receipt), failures); receiptWritten := false; }
      if runLockHeld { runLockHeld := false; failures := UndoOne(Entry(RunLock), failures); }
    }

    // ---- After the commit ----

    /** releaseRenamedOwnedFileMarker under retryCleanupAction */
    method ReleaseMarker(file: File) returns (ok: bool)
      modifies this`disk, this`fates, this`loud
      ensures Did(Here(), ok) == ReleaseWithRetry(old(Here()), file)
    {
      hide Removal;
      var again: bool;
      ok, again := RemoveEntry(Marker(file));
      if again {
        ok, again := RemoveEntry(Marker(file));
      }
    }

    /** cleanupCommittedReceipt with the locks held: the number of residuals. */
    method CleanupCommitted() returns (residuals: nat)
      requires manifestLockHeld == !mode.ProviderOnly?
      modifies this`disk, this`torn, this`saved, this`fates, this`loud, this`manifestLockHeld
      ensures Count(Here(), residuals) == CleanedUp(mode, old(Here()))
    {
      hide Removal, Updating, ReleaseWithRetry;
      var ok := UpdateReceipt(CleanupRequired);
      residuals := if ok then 0 else 1;
      if residuals == 0 && !mode.ProviderOnly? {
        ok := ReleaseMarker(Candidate);
        residuals := if ok then 0 else 1;
      }
      if residuals == 0 && mode.IntoExisting? {
        var again: bool;
        ok, again := RemoveEntry(Marker(Draft));
        residuals := if ok then 0 else 1;
      }
      if manifestLockHeld {
        manifestLockHeld := false;
        var again: bool;
        ok, again := RemoveEntry(ManifestLock);
        residuals := if ok then residuals else residuals + 1;
      }
      ok := UpdateReceipt(if residuals == 0 then CommittedClean else CleanupRequired);
      residuals := if ok then residuals else residuals + 1;
    }

    /** What follows the commit rename, whether or not its durability is certain. */
    method Finish() returns (residuals: nat)
      requires manifestLockHeld == !mode.ProviderOnly?
      modifies this`disk, this`torn, this`saved, this`fates, this`loud, this`manifestLockHeld, this`runLockHeld
      ensures Count(Here(), residuals) == Settled(mode, old(Here()))
    {
      hide Removal, Updating, CleanedUp;
      var durable := Call(Plain);
      residuals := CleanupCommitted();
      if !durable.Good? {
        var updated := UpdateReceipt(CleanupRequired);
        residuals := residuals + if updated then 1 else 2;
      }
      runLockHeld := false;
      var released, again := RemoveEntry(RunLock);
      residuals := if released then residuals else residuals + 1;
    }

    // ---- The whole run ----

    /** One promotion: it ends as EndOf says, for any pattern of call outcomes. A commit is never
        rolled back; a receipt that was written stays as long as an action before its own failed. */
    method Run() returns (r: Result, ghost workFailures: nat)
      requires AtCall(0)
      modifies this
      ensures Ending(Here(), committed, r) == EndOf(mode, refused, script)
      ensures committed ==> rollbackActions == 0 && workFailures == 0
      ensures !committed ==>
                var k := Stop(mode, refused, script);
                workFailures == Worked(mode, Recorded(mode, k), Fault(mode, k, Before(mode, script, k))).failures
    {
      hide Made, Fault, Settled, RolledBack, Worked;
      var ok := Publish();
      workFailures := 0;
      if ok {
        var residuals := Finish();
        r := Result(residuals == 0, true, residuals, 0);
      } else {
        var failures, before := Rollback();
        r := Result(false, loud, 0, failures);
        workFailures := before;
      }
    }
  }

  predicate WriteCall(mode: Mode, k: nat, file: File) {
    match file
    case Receipt => k == 5
    case Draft => k == 7 && mode.IntoExisting?
    case Candidate => k == 10 && !mode.ProviderOnly?
  }

  /** An owned write is two consecutive calls of the run. */
  lemma Wrote(mode: Mode, refused: bool, script: seq<Fate>, k: nat, file: File)
    requires WriteCall(mode, k, file) && Stop(mode, refused, script) == Stop(mode, refused, script, k)
    ensures var did, stop := OwnedWriting(Before(mode, script, k), file), Stop(mode, refused, script);
            if did.ok then did.world == Before(mode, script, k + 2) && stop == Stop(mode, refused, script, k + 2)
            else stop in {k, k + 1} && did.world == Fault(mode, stop, Before(mode, script, stop))
  {
    hide Unwriting;
    DropFirst(script, k);
    DropFirst(script, k + 1);
    if FateAt(script, k).Good? {
      assert After(Before(mode, script, k), Plain).(disk := Made(mode, k) + {Data(file)}) == Before(mode, script, k + 1);
    }
  }
}
