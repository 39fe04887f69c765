/** The publication lock of the promotion script: a directory whose owner marker names
    a process and a generation.  Any number of tasks in any number of processes run the
    acquire/release protocol; every action of every task is one step, and processes may
    crash between any two steps.

    "Verify the owner marker, then rename the directory" happens twice: a taker moves a
    stale lock aside, a holder moves its own lock aside on release.  A Pinning says, for
    each pair, whether it is one step or two. */
module DirectoryLock {
  import opened Options

  /** One call of acquireDirectoryLock (and the release of what it returned). */
  datatype Task = Task(process: nat, attempt: nat)

  datatype Phase =
    | Start                                            // about to read the lock path
    | Observed(seen: Option<nat>)                      // first snapshot taken
    | Confirmed(seen: Option<nat>)                     // second snapshot agreed
    | Judged(stale: nat)                               // directoryLockIsStale answered true
    | Verified(stale: nat)                             // owner marker verified, rename still to come
    | Quarantined(stale: nat)                          // stale generation moved aside
    | Initializing(gen: nat, takeover: bool)           // pending directory written, generation active
    | Published(gen: nat, takeover: bool)              // pending directory renamed onto the lock path
    | CleaningStale(gen: nat)                          // published by takeover, quarantine not yet removed
    | Holding(gen: nat)                                // acquireDirectoryLock has returned
    | Releasing(gen: nat)                              // releaseDirectoryLock has begun
    | ReleaseVerified(gen: nat)                        // release verified, rename still to come
    | Finished                                         // released, or acquisition gave up

  datatype State = State(
    lockPath: Option<nat>,        // generation of the directory at the lock path
    owner: map<nat, Task>,        // the owner recorded in each generation's marker
    active: set<nat>,             // activeLockGenerations, all processes together
    dead: set<nat>,               // processes that have exited
    phase: map<Task, Phase>)

  datatype Action =
    | Observe
    | Confirm
    | Judge
    | Verify
    | Quarantine
    | Initialize(gen: nat)
    | Publish
    | Accept(readable: bool)
    | FinishTakeover(cleaned: bool)
    | BeginRelease
    | VerifyRelease
    | Isolate
    | AbandonRelease
    | Abandon

  /** Which verify-then-rename pairs are one step. */
  datatype Pinning = Pinning(takeover: bool, release: bool)

  datatype Step = Act(task: Task, action: Action) | Crash(process: nat)

  function Init(): State {
    State(None, map[], {}, {}, map[])
  }

  function PhaseOf(s: State, t: Task): Phase {
    if t in s.phase then s.phase[t] else Start
  }

  function To(s: State, t: Task, p: Phase): State {
    s.(phase := s.phase[t := p])
  }

  predicate Live(s: State, t: Task) {
    t.process !in s.dead
  }

  /** directoryLockIsStale: the recorded process is gone, or it is the judging process
      itself and the generation is not among its active ones.  A process that still
      lives is never judged gone. */
  predicate IsStale(s: State, judge: Task, gen: nat)
    requires gen in s.owner
  {
    || s.owner[gen].process in s.dead
    || (s.owner[gen].process == judge.process && gen !in s.active)
  }

  /** A renamed-away lock: what happens to the task depends on what the rename moved. */
  function MoveAside(s: State, t: Task, expected: nat): State {
    match s.lockPath
    case None => To(s, t, Finished)
    case Some(moved) =>
      To(s.(lockPath := None), t, if moved == expected then Quarantined(expected) else Finished)
  }

  /** acquireDirectoryLock up to the decision: read twice, judge, move a stale lock. */
  function Read(pinning: Pinning, s: State, t: Task, action: Action): State {
    match PhaseOf(s, t)
    case Start =>
      if action.Observe? then To(s, t, Observed(s.lockPath)) else s
    case Observed(seen) =>
      if action.Confirm? then To(s, t, if s.lockPath == seen then Confirmed(seen) else Start) else s
    case Confirmed(Some(gen)) =>
      if action.Judge? then To(s, t, if gen in s.owner && IsStale(s, t, gen) then Judged(gen) else Start) else s
    case Judged(gen) =>
      if !action.Verify? then s
      else if s.lockPath != Some(gen) then To(s, t, Finished)
      else if pinning.takeover then MoveAside(s, t, gen)
      else To(s, t, Verified(gen))
    case Verified(gen) =>
      if action.Quarantine? then MoveAside(s, t, gen) else s
    case _ => s
  }

  /** initializeDirectoryLock, and the clean-up of a quarantined lock after it. */
  function Write(s: State, t: Task, action: Action): State {
    match PhaseOf(s, t)
    case Confirmed(None) =>
      if action.Initialize? then Begin(s, t, action.gen, false) else s
    case Quarantined(_) =>
      if action.Initialize? then Begin(s, t, action.gen, true) else s
    case Initializing(gen, takeover) =>
      // rename onto an existing lock directory fails: its owner marker makes it non-empty
      if !action.Publish? then s
      else if s.lockPath == None then To(s.(lockPath := Some(gen)), t, Published(gen, takeover))
      else GiveUp(s, t, gen, if takeover then Finished else Start)
    case Published(gen, takeover) =>
      if !action.Accept? then s
      else if action.readable && s.lockPath == Some(gen)
      then To(s, t, if takeover then CleaningStale(gen) else Holding(gen))
      else GiveUp(s, t, gen, Finished)
    case CleaningStale(gen) =>
      // verifyDirectorySuccessor: the clean-up succeeds only if the new lock is still in place
      if action.FinishTakeover?
      then To(s, t, if action.cleaned && s.lockPath == Some(gen) then Holding(gen) else Releasing(gen)) else s
    case _ => s
  }

  /** releaseDirectoryLock; whatever happens, the generation stops being active. */
  function Release(pinning: Pinning, s: State, t: Task, action: Action): State {
    match PhaseOf(s, t)
    case Holding(gen) =>
      if action.BeginRelease? then To(s, t, Releasing(gen)) else s
    case Releasing(gen) =>
      if action.AbandonRelease? then GiveUp(s, t, gen, Finished)
      else if !action.VerifyRelease? then s
      else if s.lockPath != Some(gen) then GiveUp(s, t, gen, Finished)
      else if pinning.release then GiveUp(s.(lockPath := None), t, gen, Finished)
      else To(s, t, ReleaseVerified(gen))
    case ReleaseVerified(gen) =>
      if action.AbandonRelease? then GiveUp(s, t, gen, Finished)
      else if action.Isolate? then GiveUp(s.(lockPath := None), t, gen, Finished)
      else s
    case _ => s
  }

  /** Any failure before publication: the acquisition throws. */
  function Throw(s: State, t: Task): State {
    match PhaseOf(s, t)
    case Initializing(gen, _) => GiveUp(s, t, gen, Finished)
    case p =>
      if p.Start? || p.Observed? || p.Confirmed? || p.Judged? || p.Verified? || p.Quarantined?
      then To(s, t, Finished) else s
  }

  function GiveUp(s: State, t: Task, gen: nat, next: Phase): State {
    To(s.(active := s.active - {gen}), t, next)
  }

  function Perform(pinning: Pinning, s: State, t: Task, action: Action): State {
    if action.Observe? || action.Confirm? || action.Judge? || action.Verify? || action.Quarantine?
    then Read(pinning, s, t, action)
    else if action.Abandon? then Throw(s, t)
    else if action.Initialize? || action.Publish? || action.Accept? || action.FinishTakeover?
    then Write(s, t, action)
    else Release(pinning, s, t, action)
  }

  /** initializeDirectoryLock up to its rename: a private pending directory with a
      fresh generation. */
  function Begin(s: State, t: Task, gen: nat, takeover: bool): State {
    if gen in s.owner then s
    else To(s.(owner := s.owner[gen := t], active := s.active + {gen}), t, Initializing(gen, takeover))
  }

  function Apply(pinning: Pinning, s: State, step: Step): State {
    match step
    case Crash(p) => s.(dead := s.dead + {p})
    case Act(t, action) => if Live(s, t) then Perform(pinning, s, t, action) else s
  }

  function Exec(pinning: Pinning, s: State, steps: seq<Step>): State
    decreases |steps|
  {
    if steps == [] then s else Exec(pinning, Apply(pinning, s, steps[0]), steps[1..])
  }

  // ---- Safety ----

  predicate Holds(s: State, t: Task) {
    Live(s, t) && PhaseOf(s, t).Holding?
  }

  /** At most one live task holds the lock, and what it holds is what is at the path. */
  ghost predicate MutualExclusion(s: State) {
    && (forall t, u :: Holds(s, t) && Holds(s, u) ==> t == u)
    && (forall t :: Holds(s, t) ==> s.lockPath == Some(PhaseOf(s, t).gen))
  }

  /** The phases in which a task has published and not yet given its generation up. */
  predicate Owns(p: Phase) {
    p.Published? || p.CleaningStale? || p.Holding? || p.Releasing? || p.ReleaseVerified?
  }

  ghost predicate TaskInv(s: State, t: Task) {
    var p := PhaseOf(s, t);
    && (Owns(p) || p.Initializing? ==> p.gen in s.owner && s.owner[p.gen] == t && p.gen in s.active)
    && (Owns(p) ==> s.lockPath == Some(p.gen))
    && (p.Initializing? ==> s.lockPath != Some(p.gen))
    && (p.Judged? || p.Verified? ==> p.stale in s.owner && IsStale(s, t, p.stale))
  }

  /** A taker's rename moves nothing but the generation it verified. */
  predicate Undisturbed(s: State, step: Step) {
    (step.Act? && step.action.Quarantine? && Live(s, step.task) && PhaseOf(s, step.task).Verified?) ==>
      s.lockPath.None? || s.lockPath == Some(PhaseOf(s, step.task).stale)
  }

  /** Holds in every reachable state of a run whose takeovers are undisturbed. */
  ghost predicate Inv(s: State) {
    && (s.lockPath.Some? ==> s.lockPath.value in s.owner)
    && s.active <= s.owner.Keys
    && (forall t :: Live(s, t) ==> TaskInv(s, t))
  }

  /** A step of one task cannot hurt another: it only gives up its own generation, and
      moves the lock path only when no live task owns what is there. */
  lemma OthersUnharmed(s: State, s': State, t: Task)
    requires Inv(s) && s'.dead == s.dead
    requires forall u :: u != t ==> PhaseOf(s', u) == PhaseOf(s, u)
    requires forall g :: g in s.owner ==> g in s'.owner && s'.owner[g] == s.owner[g]
    requires forall g :: g in s.active && s.owner[g] != t ==> g in s'.active
    requires forall g :: g in s.owner && g !in s.active ==> g !in s'.active
    requires s'.lockPath != s.lockPath ==>
               s.lockPath.None? || s.owner[s.lockPath.value] == t || IsStale(s, t, s.lockPath.value)
    requires s'.lockPath.Some? && s'.lockPath != s.lockPath ==>
               s'.lockPath.value in s'.owner && s'.owner[s'.lockPath.value] == t
    requires s'.active <= s'.owner.Keys && TaskInv(s', t)
    ensures Inv(s')
  {
    forall u | Live(s', u)
      ensures TaskInv(s', u)
    {
      assert Live(s, u) && TaskInv(s, u);
    }
  }

  lemma ReadKeepsInv(pinning: Pinning, s: State, t: Task, action: Action)
    requires Inv(s) && Live(s, t) && Undisturbed(s, Act(t, action))
    ensures Inv(Read(pinning, s, t, action))
  {
    assert TaskInv(s, t);
    OthersUnharmed(s, Read(pinning, s, t, action), t);
  }

  lemma WriteKeepsInv(s: State, t: Task, action: Action)
    requires Inv(s) && Live(s, t)
    ensures Inv(Write(s, t, action))
  {
    assert TaskInv(s, t);
    OthersUnharmed(s, Write(s, t, action), t);
  }

  /** A release keeps the invariant whether or not its two calls are one step. */
  lemma ReleaseKeepsInv(pinning: Pinning, s: State, t: Task, action: Action)
    requires Inv(s) && Live(s, t)
    ensures Inv(Release(pinning, s, t, action))
  {
    assert TaskInv(s, t);
    OthersUnharmed(s, Release(pinning, s, t, action), t);
  }

  lemma ThrowKeepsInv(s: State, t: Task)
    requires Inv(s) && Live(s, t)
    ensures Inv(Throw(s, t))
  {
    assert TaskInv(s, t);
    OthersUnharmed(s, Throw(s, t), t);
  }

  lemma PerformKeepsInv(pinning: Pinning, s: State, t: Task, action: Action)
    requires Inv(s) && Live(s, t) && Undisturbed(s, Act(t, action))
    ensures Inv(Perform(pinning, s, t, action))
  {
    hide Inv, Read, Write, Release, Throw;
    if action.Observe? || action.Confirm? || action.Judge? || action.Verify? || action.Quarantine? {
      ReadKeepsInv(pinning, s, t, action);
    } else if action.Abandon? {
      ThrowKeepsInv(s, t);
    } else if action.Initialize? || action.Publish? || action.Accept? || action.FinishTakeover? {
      WriteKeepsInv(s, t, action);
    } else {
      ReleaseKeepsInv(pinning, s, t, action);
    }
  }

  lemma ApplyKeepsInv(pinning: Pinning, s: State, step: Step)
    requires Inv(s) && Undisturbed(s, step)
    ensures Inv(Apply(pinning, s, step))
  {
    match step
    case Crash(p) =>
      var s' := Apply(pinning, s, step);
      forall u | Live(s', u) ensures TaskInv(s', u) {
        assert Live(s, u) && TaskInv(s, u);
      }
    case Act(t, action) =>
      if Live(s, t) {
        PerformKeepsInv(pinning, s, t, action);
      }
  }

  /** Every takeover of the run is undisturbed. */
  predicate UndisturbedRun(pinning: Pinning, s: State, steps: seq<Step>)
    decreases |steps|
  {
    steps == [] || (Undisturbed(s, steps[0]) && UndisturbedRun(pinning, Apply(pinning, s, steps[0]), steps[1..]))
  }

  lemma {:induction false} ExecKeepsInv(pinning: Pinning, s: State, steps: seq<Step>)
    requires Inv(s) && UndisturbedRun(pinning, s, steps)
    ensures Inv(Exec(pinning, s, steps))
    decreases |steps|
  {
    hide Inv, Apply, Undisturbed;
    if steps != [] {
      ApplyKeepsInv(pinning, s, steps[0]);
      ExecKeepsInv(pinning, Apply(pinning, s, steps[0]), steps[1..]);
    }
  }

  lemma InvExcludes(s: State)
    requires Inv(s)
    ensures MutualExclusion(s)
  {
    forall t | Holds(s, t)
      ensures s.lockPath == Some(PhaseOf(s, t).gen) && s.owner[PhaseOf(s, t).gen] == t
    {
      assert TaskInv(s, t);
    }
  }

  /** The two-step protocol: a run in which no taker renames away a generation other than
      the one it verified ends with at most one live holder, whose generation is at the
      lock path.  Releases may interleave with anything. */
  lemma UndisturbedRunIsExclusive(pinning: Pinning, steps: seq<Step>)
    requires UndisturbedRun(pinning, Init(), steps)
    ensures MutualExclusion(Exec(pinning, Init(), steps))
  {
    ExecKeepsInv(pinning, Init(), steps);
    InvExcludes(Exec(pinning, Init(), steps));
  }

  /** Conversely, a taker's rename that moves a live holder's generation breaks exclusion
      there and then: the holder's generation is no longer at the lock path. */
  lemma DisturbanceBreaksExclusion(pinning: Pinning, s: State, t: Task, u: Task)
    requires Live(s, t) && PhaseOf(s, t).Verified? && Holds(s, u) && s.lockPath == Some(PhaseOf(s, u).gen)
    ensures !MutualExclusion(Apply(pinning, s, Act(t, Quarantine)))
  {
    var s' := Apply(pinning, s, Act(t, Quarantine));
    assert Holds(s', u) && s'.lockPath.None?;
  }

  // ---- Single runs, exactly ----

  /** The rename of a two-step pair moves the generation that another live task holds. */
  ghost predicate Steals(s: State, step: Step) {
    && step.Act? && Live(s, step.task)
    && ((step.action.Quarantine? && PhaseOf(s, step.task).Verified?)
        || (step.action.Isolate? && PhaseOf(s, step.task).ReleaseVerified?))
    && exists u :: u != step.task && Holds(s, u) && s.lockPath == Some(PhaseOf(s, u).gen)
  }

  ghost predicate NothingStolen(pinning: Pinning, s: State, steps: seq<Step>)
    decreases |steps|
  {
    steps == [] || (!Steals(s, steps[0]) && NothingStolen(pinning, Apply(pinning, s, steps[0]), steps[1..]))
  }

  ghost predicate ExclusiveThroughout(pinning: Pinning, s: State, steps: seq<Step>)
    decreases |steps|
  {
    MutualExclusion(s) && (steps != [] ==> ExclusiveThroughout(pinning, Apply(pinning, s, steps[0]), steps[1..]))
  }

  /** What holds of a task in every run, disturbed or not: its generation is its own and
      active, and what it judged stale stays so. */
  ghost predicate TaskBase(s: State, t: Task) {
    var p := PhaseOf(s, t);
    && (Owns(p) || p.Initializing? ==> p.gen in s.owner && s.owner[p.gen] == t && p.gen in s.active)
    && (p.Judged? || p.Verified? ==> p.stale in s.owner && IsStale(s, t, p.stale))
  }

  ghost predicate Base(s: State) {
    && (s.lockPath.Some? ==> s.lockPath.value in s.owner)
    && s.active <= s.owner.Keys
    && (forall t :: Live(s, t) ==> TaskBase(s, t))
  }

  lemma OthersKeepBase(s: State, s': State, t: Task)
    requires Base(s) && s'.dead == s.dead
    requires forall u :: u != t ==> PhaseOf(s', u) == PhaseOf(s, u)
    requires forall g :: g in s.owner ==> g in s'.owner && s'.owner[g] == s.owner[g]
    requires forall g :: g in s.active && s.owner[g] != t ==> g in s'.active
    requires forall g :: g in s.owner && g !in s.active ==> g !in s'.active
    requires s'.lockPath.Some? ==> s'.lockPath.value in s'.owner
    requires s'.active <= s'.owner.Keys && TaskBase(s', t)
    ensures Base(s')
  {
    forall u | Live(s', u) ensures TaskBase(s', u) {
      assert Live(s, u) && TaskBase(s, u);
    }
  }

  lemma PerformKeepsBase(pinning: Pinning, s: State, t: Task, action: Action)
    requires Base(s) && Live(s, t)
    ensures Base(Perform(pinning, s, t, action))
  {
    hide Base, Read, Write, Release, Throw;
    ReadKeepsBase(pinning, s, t, action);
    WriteKeepsBase(s, t, action);
    ReleaseKeepsBase(pinning, s, t, action);
    ThrowKeepsBase(s, t);
  }

  lemma ReadKeepsBase(pinning: Pinning, s: State, t: Task, action: Action)
    requires Base(s) && Live(s, t)
    ensures Base(Read(pinning, s, t, action))
  {
    assert TaskBase(s, t);
    OthersKeepBase(s, Read(pinning, s, t, action), t);
  }

  lemma WriteKeepsBase(s: State, t: Task, action: Action)
    requires Base(s) && Live(s, t)
    ensures Base(Write(s, t, action))
  {
    assert TaskBase(s, t);
    OthersKeepBase(s, Write(s, t, action), t);
  }

  lemma ReleaseKeepsBase(pinning: Pinning, s: State, t: Task, action: Action)
    requires Base(s) && Live(s, t)
    ensures Base(Release(pinning, s, t, action))
  {
    assert TaskBase(s, t);
    OthersKeepBase(s, Release(pinning, s, t, action), t);
  }

  lemma ThrowKeepsBase(s: State, t: Task)
    requires Base(s) && Live(s, t)
    ensures Base(Throw(s, t))
  {
    assert TaskBase(s, t);
    OthersKeepBase(s, Throw(s, t), t);
  }

  lemma ApplyKeepsBase(pinning: Pinning, s: State, step: Step)
    requires Base(s)
    ensures Base(Apply(pinning, s, step))
  {
    match step
    case Crash(p) =>
      var s' := Apply(pinning, s, step);
      forall u | Live(s', u) ensures TaskBase(s', u) {
        assert Live(s, u) && TaskBase(s, u);
      }
    case Act(t, action) =>
      if Live(s, t) {
        PerformKeepsBase(pinning, s, t, action);
      }
  }

  ghost predicate InPlace(s: State, u: Task) {
    Holds(s, u) ==> s.lockPath == Some(PhaseOf(s, u).gen) && s.lockPath.value in s.owner && s.owner[s.lockPath.value] == u
  }

  /** Whoever comes to hold the lock has just found its generation at the path. */
  lemma NewHolderInPlace(pinning: Pinning, s: State, t: Task, action: Action)
    requires Base(s) && MutualExclusion(s) && Live(s, t)
    ensures InPlace(Perform(pinning, s, t, action), t)
  {
    assert TaskBase(s, t);
  }

  /** A step cannot take the lock path from another live holder without stealing it. */
  lemma OtherHolderInPlace(pinning: Pinning, s: State, t: Task, action: Action, u: Task)
    requires Base(s) && MutualExclusion(s) && Live(s, t) && u != t && !Steals(s, Act(t, action))
    ensures InPlace(Perform(pinning, s, t, action), u)
  {
    assert TaskBase(s, t);
    assert Holds(s, u) ==> TaskBase(s, u);
  }

  lemma HolderKeepsPath(pinning: Pinning, s: State, step: Step, u: Task)
    requires Base(s) && MutualExclusion(s) && !Steals(s, step)
    ensures InPlace(Apply(pinning, s, step), u)
  {
    hide Perform, Steals;
    if step.Act? && Live(s, step.task) {
      if u == step.task {
        NewHolderInPlace(pinning, s, u, step.action);
      } else {
        OtherHolderInPlace(pinning, s, step.task, step.action, u);
      }
    } else if Holds(s, u) {
      assert TaskBase(s, u);
    }
  }

  lemma InPlaceExcludes(s: State)
    requires forall u :: InPlace(s, u)
    ensures MutualExclusion(s)
  {
    forall t, u | Holds(s, t) && Holds(s, u) ensures t == u {
      assert InPlace(s, t) && InPlace(s, u);
    }
    forall t | Holds(s, t) ensures s.lockPath == Some(PhaseOf(s, t).gen) {
      assert InPlace(s, t);
    }
  }

  lemma HonestStepExcludes(pinning: Pinning, s: State, step: Step)
    requires Base(s) && MutualExclusion(s) && !Steals(s, step)
    ensures MutualExclusion(Apply(pinning, s, step))
  {
    hide Base, Apply, Steals;
    var s' := Apply(pinning, s, step);
    forall u ensures InPlace(s', u) {
      HolderKeepsPath(pinning, s, step, u);
    }
    InPlaceExcludes(s');
  }

  lemma StealingBreaksExclusion(pinning: Pinning, s: State, step: Step)
    requires Steals(s, step)
    ensures !MutualExclusion(Apply(pinning, s, step))
  {
    var s' := Apply(pinning, s, step);
    var u :| u != step.task && Holds(s, u) && s.lockPath == Some(PhaseOf(s, u).gen);
    assert Holds(s', u) && s'.lockPath.None?;
  }

  lemma {:induction false} ThroughoutExactly(pinning: Pinning, s: State, steps: seq<Step>)
    requires Base(s) && MutualExclusion(s)
    ensures ExclusiveThroughout(pinning, s, steps) <==> NothingStolen(pinning, s, steps)
    decreases |steps|
  {
    hide Base, Apply, Steals, MutualExclusion;
    if steps != [] {
      if Steals(s, steps[0]) {
        StealingBreaksExclusion(pinning, s, steps[0]);
        NotFromHere(pinning, Apply(pinning, s, steps[0]), steps[1..]);
      } else {
        ApplyKeepsBase(pinning, s, steps[0]);
        HonestStepExcludes(pinning, s, steps[0]);
        ThroughoutExactly(pinning, Apply(pinning, s, steps[0]), steps[1..]);
      }
    }
  }

  lemma NotFromHere(pinning: Pinning, s: State, steps: seq<Step>)
    requires !MutualExclusion(s)
    ensures !ExclusiveThroughout(pinning, s, steps)
  {
  }

  /** Run by run, and for every pinning: the lock excludes in every state of a run exactly if no
      rename of a two-step pair moves a generation that another live task holds.  No other step
      of any task can break exclusion. */
  lemma ExclusiveThroughoutExactly(pinning: Pinning, steps: seq<Step>)
    ensures ExclusiveThroughout(pinning, Init(), steps) <==> NothingStolen(pinning, Init(), steps)
  {
    hide ExclusiveThroughout, NothingStolen;
    ThroughoutExactly(pinning, Init(), steps);
  }

  /** Nobody is between the two calls of a takeover. */
  ghost predicate NoneVerified(s: State) {
    forall t :: !PhaseOf(s, t).Verified?
  }

  lemma {:induction false} PinnedTakeoversAreUndisturbed(pinning: Pinning, s: State, steps: seq<Step>)
    requires pinning.takeover && NoneVerified(s)
    ensures UndisturbedRun(pinning, s, steps)
    decreases |steps|
  {
    if steps != [] {
      PinnedStepVerifiesNone(pinning, s, steps[0]);
      PinnedTakeoversAreUndisturbed(pinning, Apply(pinning, s, steps[0]), steps[1..]);
    }
  }

  lemma PinnedStepVerifiesNone(pinning: Pinning, s: State, step: Step)
    requires pinning.takeover && NoneVerified(s)
    ensures NoneVerified(Apply(pinning, s, step)) && Undisturbed(s, step)
  {
    var s' := Apply(pinning, s, step);
    forall t ensures !PhaseOf(s', t).Verified? {
      assert !PhaseOf(s, t).Verified?;
    }
  }

  /** With the takeover pair as one step, over every run, with crashes, stale takeovers and
      losing initialisers, at most one live task holds the lock and its generation is the
      one at the lock path; the release pair may be two steps. */
  lemma PinnedLockIsExclusive(pinning: Pinning, steps: seq<Step>)
    requires pinning.takeover
    ensures MutualExclusion(Exec(pinning, Init(), steps))
  {
    PinnedTakeoversAreUndisturbed(pinning, Init(), steps);
    UndisturbedRunIsExclusive(pinning, steps);
  }

  // ---- What two separate steps would allow ----

  lemma {:induction false} ExecConcat(pinning: Pinning, s: State, first: seq<Step>, rest: seq<Step>)
    ensures Exec(pinning, s, first + rest) == Exec(pinning, Exec(pinning, s, first), rest)
    decreases |first|
  {
    if first == [] {
      assert first + rest == rest;
    } else {
      assert (first + rest)[0] == first[0] && (first + rest)[1..] == first[1..] + rest;
      ExecConcat(pinning, Apply(pinning, s, first[0]), first[1..], rest);
    }
  }

  lemma ExecOne(pinning: Pinning, s: State, a: Step)
    ensures Exec(pinning, s, [a]) == Apply(pinning, s, a)
  {
    assert [a][1..] == [];
    assert Exec(pinning, Apply(pinning, s, a), []) == Apply(pinning, s, a);
  }

  lemma ExecTwo(pinning: Pinning, s: State, a: Step, b: Step)
    ensures Exec(pinning, s, [a, b]) == Apply(pinning, Apply(pinning, s, a), b)
  {
    assert [a, b] == [a] + [b];
    ExecConcat(pinning, s, [a], [b]);
    ExecOne(pinning, s, a);
    ExecOne(pinning, Apply(pinning, s, a), b);
  }

  function Acquire(t: Task, gen: nat): seq<Step> {
    [Act(t, Observe), Act(t, Confirm)] + Establish(t, gen)
  }

  function Establish(t: Task, gen: nat): seq<Step> {
    [Act(t, Initialize(gen)), Act(t, Publish)] + [Act(t, Accept(true))]
  }

  function Acquired(s: State, t: Task, gen: nat, phase: Phase): State {
    s.(lockPath := Some(gen), owner := s.owner[gen := t], active := s.active + {gen},
       phase := s.phase[t := phase])
  }

  lemma EstablishSucceeds(pinning: Pinning, s: State, t: Task, gen: nat)
    requires s.lockPath == None && Live(s, t) && gen !in s.owner
    requires PhaseOf(s, t) == Confirmed(None) || PhaseOf(s, t).Quarantined?
    ensures Exec(pinning, s, Establish(t, gen))
         == Acquired(s, t, gen, if PhaseOf(s, t).Quarantined? then CleaningStale(gen) else Holding(gen))
  {
    hide Exec;
    var takeover := PhaseOf(s, t).Quarantined?;
    var s1 := Begin(s, t, gen, takeover);
    assert Apply(pinning, s, Act(t, Initialize(gen))) == s1;
    var s2 := To(s1.(lockPath := Some(gen)), t, Published(gen, takeover));
    assert Apply(pinning, s1, Act(t, Publish)) == s2;
    ExecTwo(pinning, s, Act(t, Initialize(gen)), Act(t, Publish));
    ExecOne(pinning, s2, Act(t, Accept(true)));
    ExecConcat(pinning, s, [Act(t, Initialize(gen)), Act(t, Publish)], [Act(t, Accept(true))]);
    assert s.phase[t := Initializing(gen, takeover)][t := Published(gen, takeover)]
        == s.phase[t := Published(gen, takeover)];
    var last := if takeover then CleaningStale(gen) else Holding(gen);
    assert s2.phase[t := last] == s.phase[t := last];
  }

  /** An undisturbed acquisition of a free lock succeeds. */
  lemma AcquireSucceeds(pinning: Pinning, s: State, t: Task, gen: nat)
    requires s.lockPath == None && Live(s, t) && PhaseOf(s, t) == Start && gen !in s.owner
    ensures Exec(pinning, s, Acquire(t, gen)) == Acquired(s, t, gen, Holding(gen))
  {
    hide Exec;
    var s1 := To(s, t, Observed(None));
    assert Apply(pinning, s, Act(t, Observe)) == s1;
    var s2 := To(s1, t, Confirmed(None));
    assert Apply(pinning, s1, Act(t, Confirm)) == s2;
    ExecTwo(pinning, s, Act(t, Observe), Act(t, Confirm));
    ExecConcat(pinning, s, [Act(t, Observe), Act(t, Confirm)], Establish(t, gen));
    EstablishSucceeds(pinning, s2, t, gen);
    assert s2.phase[t := Holding(gen)] == s.phase[t := Holding(gen)];
  }

  function ReadStale(t: Task): seq<Step> {
    [Act(t, Observe), Act(t, Confirm)] + [Act(t, Judge), Act(t, Verify)]
  }

  /** A live task that finds a dead owner's lock gets as far as a verified marker. */
  lemma ReadStaleSucceeds(pinning: Pinning, s: State, t: Task, gen: nat)
    requires !pinning.takeover
    requires s.lockPath == Some(gen) && gen in s.owner && s.owner[gen].process in s.dead
    requires Live(s, t) && PhaseOf(s, t) == Start
    ensures Exec(pinning, s, ReadStale(t)) == To(s, t, Verified(gen))
  {
    hide Exec;
    var s1 := To(s, t, Observed(Some(gen)));
    assert Apply(pinning, s, Act(t, Observe)) == s1;
    var s2 := To(s1, t, Confirmed(Some(gen)));
    assert Apply(pinning, s1, Act(t, Confirm)) == s2;
    ExecTwo(pinning, s, Act(t, Observe), Act(t, Confirm));
    ExecConcat(pinning, s, [Act(t, Observe), Act(t, Confirm)], [Act(t, Judge), Act(t, Verify)]);
    var s3 := To(s2, t, Judged(gen));
    assert Apply(pinning, s2, Act(t, Judge)) == s3;
    ExecTwo(pinning, s2, Act(t, Judge), Act(t, Verify));
    assert s3.phase[t := Verified(gen)] == s.phase[t := Verified(gen)];
  }

  function TakeOver(t: Task, gen: nat): seq<Step> {
    [Act(t, Quarantine)] + (Establish(t, gen) + [Act(t, FinishTakeover(true))])
  }

  lemma TakeOverSucceeds(pinning: Pinning, s: State, t: Task, stale: nat, gen: nat)
    requires s.lockPath == Some(stale) && gen !in s.owner
    requires Live(s, t) && PhaseOf(s, t) == Verified(stale)
    ensures Exec(pinning, s, TakeOver(t, gen)) == Acquired(s, t, gen, Holding(gen))
  {
    hide Exec;
    var s1 := To(s.(lockPath := None), t, Quarantined(stale));
    assert Apply(pinning, s, Act(t, Quarantine)) == s1;
    ExecOne(pinning, s, Act(t, Quarantine));
    ExecConcat(pinning, s, [Act(t, Quarantine)], Establish(t, gen) + [Act(t, FinishTakeover(true))]);
    EstablishSucceeds(pinning, s1, t, gen);
    var s2 := Acquired(s1, t, gen, CleaningStale(gen));
    ExecConcat(pinning, s1, Establish(t, gen), [Act(t, FinishTakeover(true))]);
    ExecOne(pinning, s2, Act(t, FinishTakeover(true)));
    assert s2.phase[t := Holding(gen)] == s.phase[t := Holding(gen)];
  }

  /** A dead owner's lock that two takers have both verified. */
  function TwoTakers(a: Task, b: Task): seq<Step> {
    Acquire(Task(0, 0), 0) + ([Crash(0)] + (ReadStale(a) + ReadStale(b)))
  }

  function TwoTakersState(a: Task, b: Task): State {
    var d := Task(0, 0);
    State(Some(0), map[0 := d], {0}, {0}, map[d := Holding(0), a := Verified(0), b := Verified(0)])
  }

  lemma TwoTakersReached(pinning: Pinning, a: Task, b: Task)
    requires !pinning.takeover && a != b && a.process != 0 && b.process != 0
    ensures Exec(pinning, Init(), TwoTakers(a, b)) == TwoTakersState(a, b)
  {
    hide Exec;
    var d := Task(0, 0);
    var s1 := Exec(pinning, Init(), Acquire(d, 0));
    AcquireSucceeds(pinning, Init(), d, 0);
    ExecConcat(pinning, Init(), Acquire(d, 0), [Crash(0)] + (ReadStale(a) + ReadStale(b)));
    var s2 := Apply(pinning, s1, Crash(0));
    ExecOne(pinning, s1, Crash(0));
    ExecConcat(pinning, s1, [Crash(0)], ReadStale(a) + ReadStale(b));
    ReadStaleSucceeds(pinning, s2, a, 0);
    ExecConcat(pinning, s2, ReadStale(a), ReadStale(b));
    ReadStaleSucceeds(pinning, s2.(phase := s2.phase[a := Verified(0)]), b, 0);
  }

  /** The first taker finishes, the second renames the first's new lock away, and a
      newcomer finds the path free. */
  function SecondRename(a: Task, b: Task, c: Task): seq<Step> {
    TakeOver(a, 1) + ([Act(b, Quarantine)] + Acquire(c, 2))
  }

  lemma SecondRenameAdmitsTwoHolders(pinning: Pinning, a: Task, b: Task, c: Task)
    requires !pinning.takeover && a != b && b != c && a != c && a.process != 0 && b.process != 0 && c.process != 0
    ensures !MutualExclusion(Exec(pinning, TwoTakersState(a, b), SecondRename(a, b, c)))
  {
    hide Exec;
    var s4 := TwoTakersState(a, b);
    var s5 := Exec(pinning, s4, TakeOver(a, 1));
    TakeOverSucceeds(pinning, s4, a, 0, 1);
    ExecConcat(pinning, s4, TakeOver(a, 1), [Act(b, Quarantine)] + Acquire(c, 2));
    var s6 := To(s5.(lockPath := None), b, Finished);
    assert Apply(pinning, s5, Act(b, Quarantine)) == s6;
    ExecOne(pinning, s5, Act(b, Quarantine));
    ExecConcat(pinning, s5, [Act(b, Quarantine)], Acquire(c, 2));
    AcquireSucceeds(pinning, s6, c, 2);
    var s7 := Exec(pinning, s6, Acquire(c, 2));
    assert Holds(s7, a) && Holds(s7, c);
  }

  /** A concrete run with two live holders when a takeover is two steps, whatever the release is. */
  lemma RacingRunBreaksExclusion(pinning: Pinning)
    requires !pinning.takeover
    ensures var a, b, c := Task(1, 0), Task(2, 0), Task(3, 0);
            !MutualExclusion(Exec(pinning, Init(), TwoTakers(a, b) + SecondRename(a, b, c)))
  {
    var a, b, c := Task(1, 0), Task(2, 0), Task(3, 0);
    TwoTakersReached(pinning, a, b);
    ExecConcat(pinning, Init(), TwoTakers(a, b), SecondRename(a, b, c));
    SecondRenameAdmitsTwoHolders(pinning, a, b, c);
  }

  /** For either form of the release: the lock excludes in every run exactly when a taker's
      verification and rename are one step. */
  lemma ExclusiveExactlyWhenPinned(release: bool, takeover: bool)
    ensures takeover <==> forall steps :: MutualExclusion(Exec(Pinning(takeover, release), Init(), steps))
  {
    var pinning := Pinning(takeover, release);
    if takeover {
      forall steps ensures MutualExclusion(Exec(pinning, Init(), steps)) {
        PinnedLockIsExclusive(pinning, steps);
      }
    } else {
      RacingRunBreaksExclusion(pinning);
    }
  }
}
