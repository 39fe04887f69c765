/** How a promotion run ends, read off its inputs: when it commits, when its result says so,
    when it is ok, and exactly when a run that fails before its commit leaves nothing. */
module PromotionEndings {
  import opened PromotionRollback
  import opened Receipts

  // ---- When the run commits ----

  lemma {:induction false} StopIs(mode: Mode, refused: bool, script: seq<Fate>, k: nat)
    requires k <= Length(mode)
    ensures var stop := Stop(mode, refused, script, k);
            && (forall i :: k <= i < stop ==> Passes(refused, script, i))
            && (stop < Length(mode) ==> !Passes(refused, script, stop))
    decreases Length(mode) - k
  {
    hide Passes;
    if k < Length(mode) && Passes(refused, script, k) {
      StopIs(mode, refused, script, k + 1);
      assert Stop(mode, refused, script, k) == Stop(mode, refused, script, k + 1);
    }
  }

  /** A run commits exactly if its checks do not refuse and its first calls all succeed. */
  lemma CommitsExactly(mode: Mode, refused: bool, script: seq<Fate>)
    ensures EndOf(mode, refused, script).committed <==> !refused && AllGood(script, Length(mode))
  {
    hide Settled, RolledBack, Fault, Made;
    StopIs(mode, refused, script, 0);
    var stop := Stop(mode, refused, script);
    if stop == Length(mode) {
      assert Passes(refused, script, 4);
      forall i | 0 <= i < Length(mode) ensures FateAt(script, i).Good? {
        assert Passes(refused, script, i);
      }
    }
  }

  /** A run that stops before its commit says committed if its last world is loud. */
  lemma EndsAs(mode: Mode, refused: bool, script: seq<Fate>)
    ensures var k, end := Stop(mode, refused, script), EndOf(mode, refused, script);
            && end.committed == (k == Length(mode))
            && (end.committed ==> end.result.committed)
            && (k < Length(mode) ==> end.result.committed == end.world.loud && !Passes(refused, script, k))
  {
    hide Settled, RolledBack, Fault, Made, Passes;
    StopIs(mode, refused, script, 0);
  }

  // ---- What the rollback leaves ----

  function UndoAll(plan: seq<Target>, c: Count): Count {
    if plan == [] then c else UndoAll(plan[1..], Tally(Undo(plan[0], c.world), c.failures))
  }

  function When(condition: bool, t: Target): seq<Target> {
    if condition then [t] else []
  }

  /** A plan carried out up to its last target. */
  lemma {:induction false} UndoMore(t: Target, condition: bool, plan: seq<Target>, c: Count)
    ensures UndoAll(plan + When(condition, t), c) == Acted(condition, t, UndoAll(plan, c))
  {
    hide Undo, Tally;
    if !condition {
      assert plan + [] == plan;
    } else if plan == [] {
      assert plan + [t] == [t];
      assert UndoAll([t][1..], Tally(Undo(t, c.world), c.failures)) == Tally(Undo(t, c.world), c.failures);
    } else {
      UndoMore(t, condition, plan[1..], Tally(Undo(plan[0], c.world), c.failures));
      assert (plan + [t])[1..] == plan[1..] + [t];
    }
  }

  function Objects(t: Target): set<Artifact> {
    match t
    case Entry(a) => {a}
    case Owned(file) => Pair(file)
  }

  function AllObjects(plan: seq<Target>): set<Artifact> {
    if plan == [] then {} else Objects(plan[0]) + AllObjects(plan[1..])
  }

  predicate Apart(plan: seq<Target>) {
    plan != [] ==> Objects(plan[0]) !! AllObjects(plan[1..]) && Hidden !in Objects(plan[0]) && Apart(plan[1..])
  }

  predicate Refused(fate: Fate) {
    fate.Bad? && fate.effect.Nothing?
  }

  /** `m` moves succeed, and the destruction after them leaves nothing. */
  predicate Destroyed(m: nat, fates: seq<Fate>) {
    AllGood(fates, m) && Gone(FateAt(fates, m))
  }

  /** A first try that did nothing is followed by a second. */
  function Tries(fates: seq<Fate>): nat {
    if Refused(FateAt(fates, 0)) then 1 else 0
  }

  function Moves(w: World, file: File): nat {
    if Data(file) in w.disk then 2 else 1
  }

  predicate Retried(m: nat, fates: seq<Fate>) {
    Destroyed(m, Drop(fates, Tries(fates)))
  }

  /** The next fates let this action leave nothing of its objects, and no container. */
  predicate Clears(t: Target, w: World) {
    match t
    case Entry(a) => a in w.disk ==> Gone(Next(w))
    case Owned(file) =>
      w.disk !! Pair(file)
      || (Marker(file) in w.disk && file !in w.torn
          && Retried(Moves(w, file), w.fates))
  }

  /** How many calls it then makes. */
  function Calls(t: Target, w: World): nat {
    match t
    case Entry(a) => if a in w.disk then 1 else 0
    case Owned(file) =>
      if w.disk !! Pair(file) then 0 else Tries(w.fates) + Moves(w, file) + 1
  }

  /** And whether it then reports success: a destruction that took effect and failed quietly
      in the first try is found done by the second. */
  predicate Succeeds(t: Target, w: World) {
    Calls(t, w) > 0 ==>
      var last := FateAt(w.fates, Calls(t, w) - 1);
      last.Good? || (t.Owned? && Tries(w.fates) == 0 && !Loud(Moving, last))
  }

  function Cleared(t: Target, w: World): World {
    w.(disk := w.disk - Objects(t), fates := Drop(w.fates, Calls(t, w)))
  }

  /** Every action of the plan clears, one after the other; `strict`: and succeeds. */
  predicate AllClear(plan: seq<Target>, w: World, strict: bool) {
    plan != [] ==>
      Clears(plan[0], w) && (strict ==> Succeeds(plan[0], w)) && AllClear(plan[1..], Cleared(plan[0], w), strict)
  }

  function AllCleared(plan: seq<Target>, w: World): World {
    if plan == [] then w else AllCleared(plan[1..], Cleared(plan[0], w))
  }

  lemma RemovalExact(w: World, a: Artifact)
    requires a != Hidden && Hidden !in w.disk
    ensures ExactlyCleared(Entry(a), w, Removal(w, a).Done())
  {
  }

  lemma AttemptFrame(w: World, file: File)
    ensures var v := Attempt(w, file).world;
            w.disk - Pair(file) <= v.disk <= w.disk + {Hidden} && v.torn == w.torn && v.saved == w.saved
  {
  }

  predicate Readable(w: World, file: File) {
    Marker(file) in w.disk && file !in w.torn
  }

  lemma ThreeFates(fates: seq<Fate>)
    ensures FateAt(Drop(fates, 1), 0) == FateAt(fates, 1) && FateAt(Drop(Drop(fates, 1), 1), 0) == FateAt(fates, 2)
    ensures Drop(Drop(fates, 1), 1) == Drop(fates, 2) && Drop(Drop(Drop(fates, 1), 1), 1) == Drop(fates, 3)
    ensures Destroyed(1, fates) <==> FateAt(fates, 0).Good? && Gone(FateAt(fates, 1))
    ensures Destroyed(2, fates) <==> FateAt(fates, 0).Good? && FateAt(fates, 1).Good? && Gone(FateAt(fates, 2))
  {
    DropAgain(fates, 1, 1);
    DropAgain(fates, 2, 1);
  }

  /** One try that can read the marker: it destroys the pair, or does nothing and says so
      quietly, or leaves a container. */
  lemma AttemptExact(w: World, file: File)
    requires Hidden !in w.disk && Readable(w, file)
    ensures var t, m := Attempt(w, file), Moves(w, file);
            && (Destroyed(m, w.fates) ==>
                  && t.world == w.(disk := w.disk - Pair(file), fates := Drop(w.fates, m + 1), loud := t.world.loud)
                  && t.ok == FateAt(w.fates, m).Good? && t.quiet == (!t.ok && !Loud(Moving, FateAt(w.fates, m))))
            && (Refused(Next(w)) ==> t.world.disk == w.disk && t.world.fates == Drop(w.fates, 1) && !t.ok && t.quiet)
            && (!Destroyed(m, w.fates) && !Refused(Next(w)) ==> Hidden in t.world.disk)
            && t.world.torn == w.torn && t.world.saved == w.saved
  {
    hide Destroyed;
    ThreeFates(w.fates);
  }

  ghost predicate ExactlyCleared(t: Target, w: World, did: Did) {
    && (Clears(t, w) <==> did.world.disk == w.disk - Objects(t))
    && (Clears(t, w) ==> did.world == Cleared(t, w).(loud := did.world.loud) && (did.ok <==> Succeeds(t, w)))
  }

  lemma OwnedRetried(w: World, file: File)
    requires Hidden !in w.disk && Readable(w, file) && Refused(Next(w))
    ensures ExactlyCleared(Owned(file), w, OwnedRemoval(w, file))
  {
    hide Attempt, Destroyed;
    var first := Attempt(w, file);
    AttemptExact(w, file);
    AttemptExact(first.world, file);
    DropAgain(w.fates, 1, Moves(w, file));
    DropAgain(w.fates, 1, Moves(w, file) + 1);
    if Refused(FateAt(first.world.fates, 0)) {
      NotBoth(Moves(w, file), first.world.fates);
    }
  }

  lemma OwnedOnce(w: World, file: File)
    requires Hidden !in w.disk && Readable(w, file) && !Refused(Next(w))
    ensures ExactlyCleared(Owned(file), w, OwnedRemoval(w, file))
  {
    hide Attempt, Destroyed;
    var first := Attempt(w, file);
    AttemptExact(w, file);
    AttemptFrame(first.world, file);
    assert Drop(w.fates, 0) == w.fates;
    assert Marker(file) in w.disk * Pair(file);
    if Destroyed(Moves(w, file), w.fates) {
      Absent(first.world, file);
    } else {
      assert Hidden in OwnedRemoval(w, file).world.disk;
    }
  }

  lemma OwnedExact(w: World, file: File)
    requires Hidden !in w.disk
    ensures ExactlyCleared(Owned(file), w, OwnedRemoval(w, file))
  {
    if w.disk !! Pair(file) {
      Absent(w, file);
      assert w.disk == w.disk - Pair(file);
    } else if !Readable(w, file) {
      Unreadable(w, file);
    } else if Refused(Next(w)) {
      OwnedRetried(w, file);
    } else {
      OwnedOnce(w, file);
    }
  }

  lemma Absent(w: World, file: File)
    requires w.disk !! Pair(file)
    ensures Attempt(w, file) == Tried(w, true, false)
  {
    assert Data(file) in Pair(file) && Marker(file) in Pair(file);
  }

  lemma Unreadable(w: World, file: File)
    requires !(w.disk !! Pair(file)) && !Readable(w, file)
    ensures Attempt(w, file) == Tried(w, false, true)
  {
  }

  lemma NotBoth(m: nat, fates: seq<Fate>)
    requires m > 0 && Refused(FateAt(fates, 0))
    ensures !Destroyed(m, fates)
  {
    assert !FateAt(fates, 0).Good?;
  }

  lemma UndoFrame(t: Target, w: World)
    ensures var v := Undo(t, w).world;
            w.disk - Objects(t) <= v.disk <= w.disk + {Hidden} && v.torn == w.torn && v.saved == w.saved
  {
    hide Attempt;
    match t
    case Entry(a) =>
    case Owned(file) =>
      AttemptFrame(w, file);
      AttemptFrame(Attempt(w, file).world, file);
  }

  lemma UndoExact(t: Target, w: World)
    requires Hidden !in w.disk && Hidden !in Objects(t)
    ensures ExactlyCleared(t, w, Undo(t, w))
  {
    hide Clears, Succeeds, Cleared, ExactlyCleared, Removal, OwnedRemoval;
    match t
    case Entry(a) => RemovalExact(w, a);
    case Owned(file) => OwnedExact(w, file);
  }

  lemma {:induction false} UndoAllFrame(plan: seq<Target>, c: Count)
    ensures var f := UndoAll(plan, c);
            && c.world.disk - AllObjects(plan) <= f.world.disk <= c.world.disk + {Hidden}
            && f.failures >= c.failures
  {
    hide Undo;
    if plan != [] {
      UndoFrame(plan[0], c.world);
      UndoAllFrame(plan[1..], Tally(Undo(plan[0], c.world), c.failures));
    }
  }

  /** Only the disk, the readable pairs and the fates matter. */
  lemma LoudAside(t: Target, w: World, v: World)
    requires v == w.(loud := v.loud)
    ensures (Clears(t, w) <==> Clears(t, v)) && (Succeeds(t, w) <==> Succeeds(t, v))
    ensures Cleared(t, v) == Cleared(t, w).(loud := v.loud)
  {
  }

  lemma {:induction false} LoudIsIrrelevant(plan: seq<Target>, w: World, v: World, strict: bool)
    requires v == w.(loud := v.loud)
    ensures AllClear(plan, w, strict) <==> AllClear(plan, v, strict)
    ensures AllCleared(plan, v) == AllCleared(plan, w).(loud := v.loud)
  {
    hide Clears, Succeeds, Cleared;
    if plan != [] {
      LoudAside(plan[0], w, v);
      LoudIsIrrelevant(plan[1..], Cleared(plan[0], w), Cleared(plan[0], v), strict);
    }
  }

  lemma {:induction false} HiddenApart(plan: seq<Target>)
    requires Apart(plan)
    ensures Hidden !in AllObjects(plan)
  {
    if plan != [] {
      HiddenApart(plan[1..]);
    }
  }

  /** A plan leaves nothing of its objects and no container exactly if every action clears;
      without a failed action exactly if every action also succeeds. */
  lemma {:induction false} UndoAllExact(plan: seq<Target>, c: Count)
    requires Hidden !in c.world.disk && Apart(plan)
    ensures var f := UndoAll(plan, c);
            && (AllClear(plan, c.world, false) <==> f.world.disk == c.world.disk - AllObjects(plan))
            && (AllClear(plan, c.world, true) <==> f.world.disk == c.world.disk - AllObjects(plan) && f.failures == c.failures)
            && (AllClear(plan, c.world, false) ==> f.world == AllCleared(plan, c.world).(loud := f.world.loud))
  {
    hide Undo, Clears, Succeeds;
    if plan != [] {
      var t, rest := plan[0], plan[1..];
      var d := Tally(Undo(t, c.world), c.failures);
      UndoExact(t, c.world);
      UndoFrame(t, c.world);
      UndoAllFrame(rest, d);
      if Clears(t, c.world) {
        UndoAllExact(rest, d);
        LoudIsIrrelevant(rest, Cleared(t, c.world), d.world, false);
        LoudIsIrrelevant(rest, Cleared(t, c.world), d.world, true);
        assert c.world.disk - AllObjects(plan) == d.world.disk - AllObjects(rest);
      } else {
        var left :| left in d.world.disk && left !in c.world.disk - Objects(t);
        HiddenApart(rest);
        assert left in UndoAll(rest, d).world.disk;
        assert left !in c.world.disk - AllObjects(plan);
      }
    }
  }

  // ---- The rollback as a plan ----

  /** Before the receipt's turn. */
  function Work(mode: Mode, flags: Flags): seq<Target> {
    [Owned(Candidate)] + When(flags.manifestLock, Entry(ManifestLock)) + When(flags.draft, Owned(Draft))
    + When(flags.run && !mode.ProviderOnly?, Entry(RunDirectory)) + When(flags.staging, Entry(Staging))
  }

  function Last(flags: Flags, receipt: bool): seq<Target> {
    When(receipt, Owned(Receipt)) + When(flags.runLock, Entry(RunLock))
  }

  lemma WorkIsPlan(mode: Mode, flags: Flags, w: World)
    ensures Worked(mode, flags, w) == UndoAll(Work(mode, flags), Count(w, 0))
  {
    hide Acted, UndoAll, When;
    var c := Count(w, 0);
    Singleton(Owned(Candidate), c);
    var p := [Owned(Candidate)];
    UndoMore(Entry(ManifestLock), flags.manifestLock, p, c);
    p := p + When(flags.manifestLock, Entry(ManifestLock));
    UndoMore(Owned(Draft), flags.draft, p, c);
    p := p + When(flags.draft, Owned(Draft));
    UndoMore(Entry(RunDirectory), flags.run && !mode.ProviderOnly?, p, c);
    p := p + When(flags.run && !mode.ProviderOnly?, Entry(RunDirectory));
    UndoMore(Entry(Staging), flags.staging, p, c);
  }

  lemma Singleton(t: Target, c: Count)
    ensures UndoAll([t], c) == Acted(true, t, c)
  {
    hide Undo, Tally;
    assert [t][1..] == [];
  }

  lemma RollbackIsPlan(mode: Mode, flags: Flags, w: World)
    ensures var worked := Worked(mode, flags, w);
            RolledBack(mode, flags, w) == UndoAll(Last(flags, flags.receipt && worked.failures == 0), worked)
  {
    hide Undo, Tally, Worked;
    var worked := Worked(mode, flags, w);
    var receipt := flags.receipt && worked.failures == 0;
    UndoMore(Entry(RunLock), flags.runLock, When(receipt, Owned(Receipt)), worked);
    Singleton(Owned(Receipt), worked);
    assert UndoAll(When(receipt, Owned(Receipt)), worked) == Acted(receipt, Owned(Receipt), worked);
  }

  lemma {:induction false} ApartMore(plan: seq<Target>, condition: bool, t: Target)
    requires Apart(plan) && Objects(t) !! AllObjects(plan) && Hidden !in Objects(t)
    ensures Apart(plan + When(condition, t))
    ensures AllObjects(plan + When(condition, t)) == AllObjects(plan) + (if condition then Objects(t) else {})
  {
    if !condition {
      assert plan + [] == plan;
    } else if plan == [] {
      assert plan + [t] == [t] && [t][1..] == [];
    } else {
      ApartMore(plan[1..], condition, t);
      assert (plan + [t])[1..] == plan[1..] + [t];
    }
  }

  /** What the rollback goes after. */
  predicate Known(mode: Mode, flags: Flags, a: Artifact) {
    match a
    case Staging => flags.staging
    case RunDirectory => flags.run && !mode.ProviderOnly?
    case RunLock => flags.runLock
    case ManifestLock => flags.manifestLock
    case Hidden => false
    case _ => a.file.Candidate? || (a.file.Draft? && flags.draft) || (a.file.Receipt? && flags.receipt)
  }

  lemma WorkApart(mode: Mode, flags: Flags)
    ensures Apart(Work(mode, flags))
    ensures forall a :: a in AllObjects(Work(mode, flags)) <==>
              Known(mode, flags, a) && !a.RunLock? && a !in Pair(Receipt)
  {
    hide Apart, AllObjects, When;
    var p := [Owned(Candidate)];
    OneApart(Owned(Candidate));
    ApartMore(p, flags.manifestLock, Entry(ManifestLock));
    p := p + When(flags.manifestLock, Entry(ManifestLock));
    ApartMore(p, flags.draft, Owned(Draft));
    p := p + When(flags.draft, Owned(Draft));
    ApartMore(p, flags.run && !mode.ProviderOnly?, Entry(RunDirectory));
    p := p + When(flags.run && !mode.ProviderOnly?, Entry(RunDirectory));
    ApartMore(p, flags.staging, Entry(Staging));
  }

  lemma OneApart(t: Target)
    requires Hidden !in Objects(t)
    ensures Apart([t]) && AllObjects([t]) == Objects(t)
  {
    assert [t][1..] == [];
  }

  lemma LastApart(flags: Flags, receipt: bool)
    ensures Apart(Last(flags, receipt))
    ensures forall a :: a in AllObjects(Last(flags, receipt)) <==>
              (receipt && a in Pair(Receipt)) || (flags.runLock && a.RunLock?)
  {
    OneApart(Owned(Receipt));
    assert AllObjects([]) == {} && Apart([]);
    ApartMore(When(receipt, Owned(Receipt)), flags.runLock, Entry(RunLock));
  }

  /** The disk after the failing call holds only what the flags (and the candidate's own
      clean-up) know of, and every clean-up call the flags ask for leaves nothing; with a
      receipt to remove, none before it may even report a failure. */
  predicate NothingLeft(mode: Mode, flags: Flags, w: World) {
    && (forall a :: a in w.disk ==> Known(mode, flags, a))
    && AllClear(Work(mode, flags), w, flags.receipt)
    && AllClear(Last(flags, flags.receipt), AllCleared(Work(mode, flags), w), false)
  }

  lemma RollbackExact(mode: Mode, flags: Flags, w: World)
    requires flags.receipt ==> Data(Receipt) in w.disk
    ensures RolledBack(mode, flags, w).world.disk == {} <==> NothingLeft(mode, flags, w)
  {
    hide Worked, RolledBack, UndoAll, AllClear, AllCleared, Work, Last, Known;
    var worked := Worked(mode, flags, w);
    var receipt := flags.receipt && worked.failures == 0;
    WorkIsPlan(mode, flags, w);
    RollbackIsPlan(mode, flags, w);
    WorkApart(mode, flags);
    LastApart(flags, receipt);
    UndoAllFrame(Work(mode, flags), Count(w, 0));
    UndoAllFrame(Last(flags, receipt), worked);
    HiddenUnknown(mode, flags);
    if Hidden in w.disk {
      assert Hidden in RolledBack(mode, flags, w).world.disk;
    } else {
      UndoAllExact(Work(mode, flags), Count(w, 0));
      if flags.receipt && !receipt {
        assert Data(Receipt) in RolledBack(mode, flags, w).world.disk;
      } else if Hidden in worked.world.disk {
        assert Hidden in RolledBack(mode, flags, w).world.disk;
      } else {
        UndoAllExact(Last(flags, receipt), worked);
        FromWorked(mode, flags, w, worked);
      }
    }
  }

  lemma HiddenUnknown(mode: Mode, flags: Flags)
    ensures !Known(mode, flags, Hidden)
    ensures forall a :: a in Pair(Receipt) ==> (Known(mode, flags, a) <==> flags.receipt)
    ensures Known(mode, flags, RunLock) <==> flags.runLock
  {
  }

  lemma FromWorked(mode: Mode, flags: Flags, w: World, worked: Count)
    requires AllClear(Work(mode, flags), w, false) ==> worked.world == AllCleared(Work(mode, flags), w).(loud := worked.world.loud)
    ensures AllClear(Work(mode, flags), w, false) ==>
              (AllClear(Last(flags, flags.receipt), AllCleared(Work(mode, flags), w), false)
               <==> AllClear(Last(flags, flags.receipt), worked.world, false))
  {
    if AllClear(Work(mode, flags), w, false) {
      LoudIsIrrelevant(Last(flags, flags.receipt), AllCleared(Work(mode, flags), w), worked.world, false);
    }
  }

  // ---- The failing call ----

  /** An owner marker could not be written, and what follows leaves nothing of the pair. */
  predicate Unwritten(fates: seq<Fate>) {
    var marker, data, rest := FateAt(fates, 0), FateAt(fates, 1), Drop(fates, 2);
    && marker.Bad? && !Half(marker)
    && (if marker.effect.Nothing? then Gone(data) else (Gone(data) && Retried(1, rest)) || (Refused(data) && Retried(2, rest)))
  }

  /** The same, but only no container is left. */
  predicate Uncontained(fates: seq<Fate>) {
    var marker, data, rest := FateAt(fates, 0), FateAt(fates, 1), Drop(fates, 2);
    && marker.Bad? && !Half(data)
    && (marker.effect.Applied? ==> NoContainer(if Gone(data) then 1 else 2, rest))
  }

  predicate NoContainer(m: nat, fates: seq<Fate>) {
    Destroyed(m, fates)
    || (Refused(FateAt(fates, 0)) && (Destroyed(m, Drop(fates, 1)) || Refused(FateAt(fates, 1))))
  }

  /** The failing call leaves nothing that the flags do not know of: which call it is, how it
      ends, and how the few calls end that it makes to clean up after itself. */
  predicate CleanFault(mode: Mode, k: nat, fates: seq<Fate>) {
    var fate := FateAt(fates, 0);
    if k == 0 || k == 5 || (k == 7 && mode.IntoExisting?) then Refused(fate)
    else if k == 1 then false
    else if k == 3 || k == 14 then Refused(fate) || (fate.Bad? && fate.effect.Isolated? && Gone(FateAt(fates, 1)))
    else if k == 6 || (k == 8 && mode.IntoExisting?) then Unwritten(fates)
    else if k == 9 && mode.IntoExisting? then !Half(fate)
    else if k == 11 then Uncontained(fates)
    else true
  }

  lemma OwnedContainer(w: World, file: File)
    requires Hidden !in w.disk && Readable(w, file)
    ensures Hidden !in OwnedRemoval(w, file).world.disk <==> NoContainer(Moves(w, file), w.fates)
  {
    hide Attempt, Destroyed;
    var first := Attempt(w, file);
    AttemptExact(w, file);
    AttemptFrame(first.world, file);
    ThreeFates(w.fates);
    if Refused(Next(w)) {
      AttemptExact(first.world, file);
      NotBoth(Moves(w, file), w.fates);
    } else if Destroyed(Moves(w, file), w.fates) {
      Absent(first.world, file);
    }
  }

  /** After an owner marker failed: with its data in place, and the marker as `marker` says. */
  lemma UnwritingExact(w: World, file: File)
    requires Hidden !in w.disk && Data(file) in w.disk
    ensures var v, data, rest := Unwriting(w, file), Next(w), Drop(w.fates, 1);
            && w.disk - Pair(file) <= v.disk <= w.disk + {Hidden}
            && (v.disk !! Pair(file) && Hidden !in v.disk <==>
                  if Marker(file) !in w.disk then Gone(data)
                  else file !in w.torn && ((Gone(data) && Retried(1, rest)) || (Refused(data) && Retried(2, rest))))
            && (Hidden !in v.disk <==>
                  !Half(data) && (Readable(w, file) ==> NoContainer(if Gone(data) then 1 else 2, rest)))
  {
    hide Attempt, OwnedRemoval, Retried, NoContainer, ExactlyCleared;
    var u := Removal(w, Data(file)).world;
    UndoFrame(Owned(file), u);
    if Marker(file) in w.disk && Hidden !in u.disk {
      OwnedPairExact(u, file);
      if Readable(w, file) {
        OwnedContainer(u, file);
      } else {
        Unread(u, file);
      }
    }
  }

  lemma OwnedPairExact(w: World, file: File)
    requires Hidden !in w.disk && Marker(file) in w.disk
    ensures var v := OwnedRemoval(w, file).world;
            v.disk !! Pair(file) && Hidden !in v.disk <==> file !in w.torn && Retried(Moves(w, file), w.fates)
  {
    hide OwnedRemoval, Retried;
    OwnedExact(w, file);
    UndoFrame(Owned(file), w);
    assert Marker(file) in w.disk * Pair(file);
    var v := OwnedRemoval(w, file).world;
    if v.disk !! Pair(file) && Hidden !in v.disk {
      assert v.disk == w.disk - Pair(file);
    }
  }

  lemma Unread(w: World, file: File)
    requires Marker(file) in w.disk && !Readable(w, file)
    ensures OwnedRemoval(w, file).world == w
  {
    assert Marker(file) in w.disk * Pair(file);
    Unreadable(w, file);
  }

  lemma MarkerWritingExact(w: World, file: File)
    requires Next(w).Bad? && Hidden !in w.disk && Data(file) in w.disk && Marker(file) !in w.disk && file !in w.torn
    ensures var v := MarkerWriting(w, file).world;
            && w.disk - Pair(file) <= v.disk <= w.disk + Pair(file) + {Hidden}
            && (v.disk !! Pair(file) && Hidden !in v.disk <==> Unwritten(w.fates))
            && (Hidden !in v.disk <==> Uncontained(w.fates))
  {
    hide Unwriting, Retried, NoContainer;
    var fate := Next(w);
    var u := After(w, Plain).(disk := if fate.effect.Nothing? then w.disk else w.disk + {Marker(file)},
                              torn := if Half(fate) then w.torn + {file} else w.torn);
    DropAgain(w.fates, 1, 1);
    UnwritingExact(u, file);
  }

  ghost predicate AllKnown(mode: Mode, k: nat, w: World) {
    forall a :: a in w.disk ==> Known(mode, Recorded(mode, k), a)
  }

  lemma MadeIsKnown(mode: Mode, k: nat, a: Artifact)
    requires k < Length(mode) && a in Made(mode, k)
    ensures Known(mode, Recorded(mode, k), a)
            || (k == 1 && a == Staging) || (k == 6 && a == Data(Receipt)) || (k == 8 && mode.IntoExisting? && a == Data(Draft))
  {
    InMade(mode, k, a);
  }

  lemma FaultExact(mode: Mode, refused: bool, script: seq<Fate>, k: nat)
    requires k < Length(mode) && !Passes(refused, script, k)
    ensures AllKnown(mode, k, Fault(mode, k, Before(mode, script, k))) <==> CleanFault(mode, k, Drop(script, k))
  {
    hide Made, Locking, OwnedWriting, MarkerWriting, Unwritten, Uncontained;
    var w := Before(mode, script, k);
    DropFirst(script, k);
    forall a | a in w.disk
      ensures Known(mode, Recorded(mode, k), a)
              || (k == 1 && a == Staging) || (k == 6 && a == Data(Receipt)) || (k == 8 && mode.IntoExisting? && a == Data(Draft))
    {
      MadeIsKnown(mode, k, a);
    }
    if k == 1 || (k == 9 && mode.IntoExisting?) {
      InMade(mode, k, Staging);
      InMade(mode, k, Hidden);
    } else if k == 3 {
      LockFault(mode, k, RunLock, w);
    } else if k == 14 {
      LockFault(mode, k, ManifestLock, w);
    } else if k == 5 {
      DataFault(mode, k, Receipt, w);
    } else if k == 7 && mode.IntoExisting? {
      DataFault(mode, k, Draft, w);
    } else if k == 10 {
      DataFault(mode, k, Candidate, w);
    } else if k == 6 {
      MarkerFault(mode, k, Receipt, w);
    } else if k == 8 && mode.IntoExisting? {
      MarkerFault(mode, k, Draft, w);
    } else if k == 11 {
      MarkerFault(mode, k, Candidate, w);
    }
  }

  lemma LockFault(mode: Mode, k: nat, a: Artifact, w: World)
    requires AllKnown(mode, k, w) && !Known(mode, Recorded(mode, k), a) && Next(w).Bad?
    ensures AllKnown(mode, k, Locking(w, a).world) <==>
              Refused(Next(w)) || (Next(w).effect.Isolated? && Gone(FateAt(w.fates, 1)))
  {
    DropFirst(w.fates, 1);
    HiddenUnknown(mode, Recorded(mode, k));
    var v := Locking(w, a).world;
    assert v.disk == w.disk || a in v.disk || Hidden in v.disk;
  }

  lemma DataFault(mode: Mode, k: nat, file: File, w: World)
    requires AllKnown(mode, k, w) && Next(w).Bad?
    ensures AllKnown(mode, k, OwnedWriting(w, file).world) <==>
              Refused(Next(w)) || Known(mode, Recorded(mode, k), Data(file))
  {
    hide MarkerWriting;
    var v := OwnedWriting(w, file).world;
    assert v.disk == w.disk || Data(file) in v.disk;
  }

  lemma MarkerFault(mode: Mode, k: nat, file: File, w: World)
    requires w.disk == Made(mode, k) && w.torn == {} && Next(w).Bad?
    requires (k == 6 && file.Receipt?) || (k == 8 && mode.IntoExisting? && file.Draft?)
             || (k == 11 && !mode.ProviderOnly? && file.Candidate?)
    ensures AllKnown(mode, k, MarkerWriting(w, file).world) <==>
              if file.Candidate? then Uncontained(w.fates) else Unwritten(w.fates)
  {
    hide Made, MarkerWriting, Unwritten, Uncontained;
    InMade(mode, k, Data(file));
    InMade(mode, k, Marker(file));
    InMade(mode, k, Hidden);
    MarkerWritingExact(w, file);
    var v := MarkerWriting(w, file).world;
    forall a | a in v.disk && a !in Pair(file) && a != Hidden ensures Known(mode, Recorded(mode, k), a) {
      MadeIsKnown(mode, k, a);
    }
    assert Data(file) in v.disk || Marker(file) in v.disk || v.disk !! Pair(file);
    assert Known(mode, Recorded(mode, k), Data(file)) <==> file.Candidate?;
    assert Known(mode, Recorded(mode, k), Marker(file)) <==> file.Candidate?;
    HiddenUnknown(mode, Recorded(mode, k));
  }

  // ---- What the result says ----

  /** What one action, or the failing call, does with the fates: how many calls it makes,
      whether one of them fails with an error that says committed, whether it succeeds. */
  datatype Turn = Turn(calls: nat, loud: bool, ok: bool)

  /** After this failure the object is still at its path. */
  predicate StillThere(fate: Fate) {
    fate.Bad? && (fate.effect.Nothing? || fate.effect.Box?)
  }

  /** One try with `m` moves to make stops at its first failure, or after the destruction. */
  function TryCalls(m: nat, fates: seq<Fate>): (calls: nat)
    ensures 1 <= calls <= m + 1
    decreases m
  {
    if FateAt(fates, 0).Bad? || m == 0 then 1 else 1 + TryCalls(m - 1, Drop(fates, 1))
  }

  /** The moves that are left to a second try; none if both paths are free by then. */
  function MovesLeft(m: nat, fates: seq<Fate>): nat {
    var n := TryCalls(m, fates);
    var last := FateAt(fates, n - 1);
    if n == m + 1 then 0
    else if n == m then (if StillThere(last) then 1 else 0)
    else (if StillThere(last) then 2 else 1)
  }

  /** Both tries at a file whose marker can be read. */
  function OwnedTurn(m: nat, fates: seq<Fate>): Turn {
    var n, left := TryCalls(m, fates), MovesLeft(m, fates);
    var last := FateAt(fates, n - 1);
    if last.Good? then Turn(n, false, true)
    else if Loud(Moving, last) then Turn(n, true, false)
    else if left == 0 then Turn(n, false, true)
    else
      var rest := Drop(fates, n);
      var end := FateAt(rest, TryCalls(left, rest) - 1);
      Turn(n + TryCalls(left, rest), Loud(Moving, end), end.Good?)
  }

  function TurnOf(t: Target, disk: set<Artifact>, torn: set<File>, fates: seq<Fate>): Turn {
    match t
    case Entry(a) =>
      if a in disk then Turn(1, Loud(Moving, FateAt(fates, 0)), FateAt(fates, 0).Good?) else Turn(0, false, true)
    case Owned(file) =>
      if Data(file) !in disk && Marker(file) !in disk then Turn(0, false, true)
      else if Marker(file) !in disk || file in torn then Turn(0, false, false)
      else OwnedTurn(if Data(file) in disk then 2 else 1, fates)
  }

  function Turns(plan: seq<Target>, disk: set<Artifact>, torn: set<File>, fates: seq<Fate>): Turn {
    if plan == [] then Turn(0, false, true)
    else
      var first := TurnOf(plan[0], disk, torn, fates);
      var rest := Turns(plan[1..], disk, torn, Drop(fates, first.calls));
      Turn(first.calls + rest.calls, first.loud || rest.loud, first.ok && rest.ok)
  }

  /** An owner marker's failure: the data's removal, the pair's if the marker can be read, and
      the look whose own failure silences both. */
  function UnwritingTurn(fates: seq<Fate>): Turn {
    var marker, data, rest := FateAt(fates, 0), FateAt(fates, 1), Drop(fates, 2);
    var pair := if marker.Bad? && marker.effect.Applied? then OwnedTurn(if StillThere(data) then 2 else 1, rest)
                else Turn(0, false, true);
    Turn(pair.calls + 3, FateAt(rest, pair.calls).Good? && (Loud(Moving, data) || pair.loud), false)
  }

  /** The failing call `k` with the calls it makes about its own failure. */
  function FaultTurn(mode: Mode, k: nat, fates: seq<Fate>): Turn {
    var fate := FateAt(fates, 0);
    if k == 6 || k == 11 || (k == 8 && mode.IntoExisting?) then UnwritingTurn(fates)
    else if (k == 3 || k == 14) && fate.Bad? && fate.effect.Isolated?
    then Turn(2, Loud(Moving, fate) || Loud(Moving, FateAt(fates, 1)), false)
    else Turn(1, Loud(KindOf(mode, k), fate), false)
  }

  /** The failing call `k` or one of the clean-up calls that follow it says committed, with
      what is on the disk and unreadable in between. */
  predicate SaysFrom(mode: Mode, k: nat, disk: set<Artifact>, torn: set<File>, fates: seq<Fate>) {
    var flags, fault := Recorded(mode, k), FaultTurn(mode, k, fates);
    var work := Turns(Work(mode, flags), disk, torn, Drop(fates, fault.calls));
    var last := Turns(Last(flags, flags.receipt && work.ok), disk, torn, Drop(fates, fault.calls + work.calls));
    fault.loud || work.loud || last.loud
  }

  /** The input condition: which call fails first, what it leaves, and for as many calls as
      that and their own fates ask for, whether one says committed. */
  predicate SaysCommitted(mode: Mode, refused: bool, script: seq<Fate>)
    requires Stop(mode, refused, script) < Length(mode)
  {
    var k := Stop(mode, refused, script);
    var left := Fault(mode, k, Before(mode, script, k));
    SaysFrom(mode, k, left.disk, left.torn, Drop(script, k))
  }

  /** `v` comes from `w` by that many calls, one of them loud or none. */
  predicate Turned(w: World, v: World, calls: nat, loud: bool) {
    v.fates == Drop(w.fates, calls) && (v.loud <==> w.loud || loud)
  }

  lemma DestructionTurn(w: World)
    ensures var t, last := Destruction(w), FateAt(w.fates, 0);
            Turned(w, t.world, 1, Loud(Moving, last))
  {
  }

  lemma MarkerAsideTurn(w: World, file: File, aside: bool)
    requires Data(file) !in w.disk && Marker(file) in w.disk
    ensures var t, n := MarkerAside(w, file, aside), TryCalls(1, w.fates);
            var last := FateAt(w.fates, n - 1);
            && Turned(w, t.world, n, Loud(Moving, last))
            && t.ok == last.Good? && t.quiet == (last.Bad? && !Loud(Moving, last))
            && t.world.torn == w.torn && Data(file) !in t.world.disk
            && (last.Bad? ==> (Marker(file) in t.world.disk <==> MovesLeft(1, w.fates) == 1) && MovesLeft(1, w.fates) <= 1)
  {
    ThreeFates(w.fates);
  }

  /** One try that can read the marker: its calls, and what it leaves to a second. */
  predicate TriedAs(w: World, file: File, t: Tried) {
    var m := Moves(w, file);
    var n, left := TryCalls(m, w.fates), MovesLeft(m, w.fates);
    var last := FateAt(w.fates, n - 1);
    && Turned(w, t.world, n, Loud(Moving, last))
    && t.ok == last.Good? && t.quiet == (last.Bad? && !Loud(Moving, last)) && t.world.torn == w.torn
    && (last.Bad? && left == 0 ==> t.world.disk !! Pair(file))
    && (last.Bad? && left > 0 ==> Readable(t.world, file) && Moves(t.world, file) == left)
  }

  lemma DataStuck(w: World, file: File)
    requires Readable(w, file) && Data(file) in w.disk && Next(w).Bad?
    ensures TriedAs(w, file, Attempt(w, file))
  {
    hide MarkerAside;
  }

  /** Two moves of which the first succeeds are one call and then one move. */
  lemma FirstMoved(fates: seq<Fate>)
    requires FateAt(fates, 0).Good?
    ensures var rest := Drop(fates, 1);
            var n := TryCalls(1, rest);
            && TryCalls(2, fates) == n + 1 && FateAt(fates, n) == FateAt(rest, n - 1) && Drop(fates, n + 1) == Drop(rest, n)
            && MovesLeft(2, fates) == MovesLeft(1, rest)
  {
    var rest := Drop(fates, 1);
    DropAgain(fates, 1, TryCalls(1, rest));
    DropAgain(fates, 1, TryCalls(1, rest) - 1);
    assert TryCalls(2, fates) == 1 + TryCalls(1, rest);
  }

  lemma DataMoved(w: World, file: File)
    requires Readable(w, file) && Data(file) in w.disk && Next(w).Good?
    ensures TriedAs(w, file, Attempt(w, file))
  {
    hide MarkerAside, Loud, StillThere, TryCalls, MovesLeft, Drop;
    var v := After(w, Moving).(disk := w.disk - {Data(file)});
    MarkerAsideTurn(v, file, true);
    FirstMoved(w.fates);
    QuietGood(w);
  }

  lemma QuietGood(w: World)
    requires Next(w).Good?
    ensures After(w, Moving).loud == w.loud
  {
  }

  lemma AttemptTurn(w: World, file: File)
    requires Readable(w, file)
    ensures TriedAs(w, file, Attempt(w, file))
  {
    hide MarkerAside, TriedAs;
    if Data(file) !in w.disk {
      DataAbsent(w, file);
    } else if Next(w).Good? {
      DataMoved(w, file);
    } else {
      DataStuck(w, file);
    }
  }

  lemma DataAbsent(w: World, file: File)
    requires Readable(w, file) && Data(file) !in w.disk
    ensures TriedAs(w, file, Attempt(w, file))
  {
    hide MarkerAside, Loud, StillThere;
    MarkerAsideTurn(w, file, false);
  }

  lemma TurnedTwice(u: World, v: World, w: World, m: nat, n: nat, first: bool, second: bool)
    requires Turned(u, v, m, first) && Turned(v, w, n, second)
    ensures Turned(u, w, m + n, first || second)
  {
    DropAgain(u.fates, m, n);
  }

  lemma ReadableTurn(w: World, file: File)
    requires Readable(w, file)
    ensures var did, turn := OwnedRemoval(w, file), OwnedTurn(Moves(w, file), w.fates);
            Turned(w, did.world, turn.calls, turn.loud) && did.ok == turn.ok
  {
    hide Attempt, TryCalls, MovesLeft, Moves;
    var first, m := Attempt(w, file), Moves(w, file);
    var n, left := TryCalls(m, w.fates), MovesLeft(m, w.fates);
    AttemptTurn(w, file);
    if first.quiet {
      if left == 0 {
        Absent(first.world, file);
      } else {
        AttemptTurn(first.world, file);
        DropAgain(w.fates, n, TryCalls(left, first.world.fates));
      }
    }
  }

  lemma OwnedTurnExact(w: World, file: File)
    ensures var did, turn := OwnedRemoval(w, file), TurnOf(Owned(file), w.disk, w.torn, w.fates);
            Turned(w, did.world, turn.calls, turn.loud) && did.ok == turn.ok
  {
    hide Attempt, OwnedTurn;
    assert Drop(w.fates, 0) == w.fates;
    if w.disk !! Pair(file) {
      Absent(w, file);
    } else if !Readable(w, file) {
      Unreadable(w, file);
    } else {
      ReadableTurn(w, file);
    }
  }

  lemma UndoTurn(t: Target, w: World)
    ensures var did, turn := Undo(t, w), TurnOf(t, w.disk, w.torn, w.fates);
            Turned(w, did.world, turn.calls, turn.loud) && did.ok == turn.ok
  {
    hide OwnedRemoval;
    assert Drop(w.fates, 0) == w.fates;
    match t
    case Entry(a) =>
    case Owned(file) => OwnedTurnExact(w, file);
  }

  /** A turn depends on the disk only at its own objects. */
  lemma SameTurn(t: Target, disk: set<Artifact>, other: set<Artifact>, torn: set<File>, fates: seq<Fate>)
    requires forall a :: a in Objects(t) ==> (a in disk <==> a in other)
    ensures TurnOf(t, disk, torn, fates) == TurnOf(t, other, torn, fates)
  {
    hide OwnedTurn;
    match t
    case Entry(a) => assert a in Objects(t);
    case Owned(file) => assert Data(file) in Objects(t) && Marker(file) in Objects(t);
  }

  /** A plan's turns, read off the disk it starts from. */
  lemma {:induction false} TurnsExact(plan: seq<Target>, c: Count, disk: set<Artifact>)
    requires Apart(plan) && forall a :: a in AllObjects(plan) ==> (a in c.world.disk <==> a in disk)
    ensures var f, turn := UndoAll(plan, c), Turns(plan, disk, c.world.torn, c.world.fates);
            && Turned(c.world, f.world, turn.calls, turn.loud) && f.failures >= c.failures && (f.failures == c.failures <==> turn.ok)
  {
    hide Undo, TurnOf;
    assert Drop(c.world.fates, 0) == c.world.fates;
    if plan != [] {
      var t, rest := plan[0], plan[1..];
      var d := Tally(Undo(t, c.world), c.failures);
      UndoTurn(t, c.world);
      SameTurn(t, c.world.disk, disk, c.world.torn, c.world.fates);
      UndoFrame(t, c.world);
      HiddenApart(rest);
      UndoAllFrame(rest, d);
      TurnsExact(rest, d, disk);
      DropAgain(c.world.fates, TurnOf(t, disk, c.world.torn, c.world.fates).calls,
                Turns(rest, disk, c.world.torn, d.world.fates).calls);
    }
  }

  lemma RollbackTurn(mode: Mode, flags: Flags, w: World)
    ensures var work := Turns(Work(mode, flags), w.disk, w.torn, w.fates);
            var last := Turns(Last(flags, flags.receipt && work.ok), w.disk, w.torn, Drop(w.fates, work.calls));
            RolledBack(mode, flags, w).world.loud <==> w.loud || work.loud || last.loud
  {
    hide Worked, RolledBack, UndoAll, Turns, Work, Last, Known, AllObjects, Apart;
    var worked := Worked(mode, flags, w);
    var receipt := flags.receipt && worked.failures == 0;
    WorkIsPlan(mode, flags, w);
    RollbackIsPlan(mode, flags, w);
    WorkApart(mode, flags);
    LastApart(flags, receipt);
    UndoAllFrame(Work(mode, flags), Count(w, 0));
    TurnsExact(Work(mode, flags), Count(w, 0), w.disk);
    HiddenUnknown(mode, flags);
    UndoAllTorn(Work(mode, flags), Count(w, 0));
    TurnsExact(Last(flags, receipt), worked, w.disk);
  }

  lemma {:induction false} UndoAllTorn(plan: seq<Target>, c: Count)
    ensures UndoAll(plan, c).world.torn == c.world.torn
  {
    hide Undo;
    if plan != [] {
      UndoFrame(plan[0], c.world);
      UndoAllTorn(plan[1..], Tally(Undo(plan[0], c.world), c.failures));
    }
  }

  lemma RemovalTurn(w: World, a: Artifact)
    requires a in w.disk && a != Hidden
    ensures var v := Removal(w, a).world;
            && Turned(w, v, 1, Loud(Moving, Next(w))) && v.torn == w.torn && (a in v.disk <==> StillThere(Next(w)))
            && forall b :: b != a && b != Hidden ==> (b in v.disk <==> b in w.disk)
  {
  }

  /** The pair's clean-up after the data's own removal. */
  lemma LeftoverTurn(w: World, file: File)
    ensures var x := if Marker(file) in w.disk then OwnedRemoval(w, file).world else w;
            var turn := if Readable(w, file) then OwnedTurn(Moves(w, file), w.fates) else Turn(0, false, true);
            Turned(w, x, turn.calls, turn.loud)
  {
    hide OwnedTurn, OwnedRemoval;
    assert Drop(w.fates, 0) == w.fates;
    if Readable(w, file) {
      ReadableTurn(w, file);
    } else if Marker(file) in w.disk {
      Unread(w, file);
    }
  }

  lemma UnwritingTurnExact(w: World, file: File)
    requires Next(w).Bad? && Data(file) in w.disk && Marker(file) !in w.disk && file !in w.torn && !w.loud
    ensures Turned(w, MarkerWriting(w, file).world, UnwritingTurn(w.fates).calls, UnwritingTurn(w.fates).loud)
  {
    hide OwnedRemoval, OwnedTurn, Removal, Turned;
    var fate := Next(w);
    var u := After(w, Plain).(disk := if fate.effect.Nothing? then w.disk else w.disk + {Marker(file)},
                              torn := if Half(fate) then w.torn + {file} else w.torn);
    var v := Removal(u, Data(file)).world;
    DropFirst(w.fates, 1);
    RemovalTurn(u, Data(file));
    TurnedFates(u, v, 1, Loud(Moving, Next(u)));
    LeftoverTurn(v, file);
    var x := Unwriting(u, file);
    var data := FateAt(w.fates, 1);
    var pair := if fate.effect.Applied? then OwnedTurn(if StillThere(data) then 2 else 1, v.fates) else Turn(0, false, true);
    TurnedTwice(u, v, x, 1, pair.calls, Loud(Moving, data), pair.loud);
    LookedTurn(w, u, x, pair);
  }

  lemma TurnedFates(w: World, v: World, calls: nat, loud: bool)
    requires Turned(w, v, calls, loud)
    ensures v.fates == Drop(w.fates, calls)
  {
  }

  lemma LookedTurn(w: World, u: World, x: World, pair: Turn)
    requires u.fates == Drop(w.fates, 1) && !u.loud && !w.loud
    requires Turned(u, x, 1 + pair.calls, Loud(Moving, FateAt(w.fates, 1)) || pair.loud)
    ensures Turned(w, Looked(x, false), pair.calls + 3,
                   FateAt(Drop(w.fates, 2), pair.calls).Good? && (Loud(Moving, FateAt(w.fates, 1)) || pair.loud))
  {
    hide Loud;
    DropAgain(w.fates, 1, 1 + pair.calls);
    DropAgain(w.fates, 2, pair.calls);
    DropAgain(w.fates, 2 + pair.calls, 0);
    DropAgain(w.fates, 2 + pair.calls, 1);
  }

  lemma FaultTurnExact(mode: Mode, k: nat, w: World)
    requires k < Length(mode) && w.disk == Made(mode, k) && w.torn == {} && !w.loud && (Next(w).Bad? || k == 4)
    ensures Turned(w, Fault(mode, k, w), FaultTurn(mode, k, w.fates).calls, FaultTurn(mode, k, w.fates).loud)
  {
    hide Made, MarkerWriting, UnwritingTurn;
    if k == 6 || k == 11 || (k == 8 && mode.IntoExisting?) {
      var file := if k == 6 then Receipt else if k == 11 then Candidate else Draft;
      InMade(mode, k, Data(file));
      InMade(mode, k, Marker(file));
      UnwritingTurnExact(w, file);
    } else if k == 9 && mode.IntoExisting? {
      InMade(mode, k, Staging);
    } else if k == 3 || k == 14 {
      ThreeFates(w.fates);
    }
  }

  /** A result says committed exactly if the run committed or one of those calls says so. */
  lemma ReportsExactly(mode: Mode, refused: bool, script: seq<Fate>)
    ensures var end := EndOf(mode, refused, script);
            end.result.committed <==>
              end.committed || (Stop(mode, refused, script) < Length(mode) && SaysCommitted(mode, refused, script))
  {
    hide EndOf, SaysCommitted;
    EndsAs(mode, refused, script);
    if Stop(mode, refused, script) < Length(mode) {
      FailureSays(mode, refused, script);
    }
  }

  lemma FailureSays(mode: Mode, refused: bool, script: seq<Fate>)
    requires Stop(mode, refused, script) < Length(mode)
    ensures EndOf(mode, refused, script).world.loud <==> SaysCommitted(mode, refused, script)
  {
    hide Before, Fault, RolledBack, Settled, Work, Last, Turns, FaultTurn, Passes;
    var k := Stop(mode, refused, script);
    EndsAs(mode, refused, script);
    StoppedTurn(mode, script, k, refused);
    RollbackTurn(mode, Recorded(mode, k), Fault(mode, k, Before(mode, script, k)));
  }

  lemma StoppedTurn(mode: Mode, script: seq<Fate>, k: nat, refused: bool)
    requires k < Length(mode) && !Passes(refused, script, k)
    ensures var v, fault := Fault(mode, k, Before(mode, script, k)), FaultTurn(mode, k, Drop(script, k));
            && v.fates == Drop(Drop(script, k), fault.calls) && (v.loud <==> fault.loud)
            && forall n: nat {:trigger Drop(v.fates, n)} :: Drop(v.fates, n) == Drop(Drop(script, k), fault.calls + n)
  {
    hide Made, Fault, FaultTurn;
    DropFirst(script, k);
    FaultTurnExact(mode, k, Before(mode, script, k));
    var fates, calls := Drop(script, k), FaultTurn(mode, k, Drop(script, k)).calls;
    forall n: nat ensures Drop(Drop(fates, calls), n) == Drop(fates, calls + n) {
      DropAgain(fates, calls, n);
    }
  }

  // ---- What a failed run leaves ----

  /** The input condition: the first call that fails is clean, and so are the clean-up calls
      the flags ask for. */
  predicate LeavesNothing(mode: Mode, refused: bool, script: seq<Fate>)
    requires Stop(mode, refused, script) < Length(mode)
  {
    var k := Stop(mode, refused, script);
    var w, flags := Fault(mode, k, Before(mode, script, k)), Recorded(mode, k);
    && CleanFault(mode, k, Drop(script, k))
    && AllClear(Work(mode, flags), w, flags.receipt)
    && AllClear(Last(flags, flags.receipt), AllCleared(Work(mode, flags), w), false)
  }

  /** A run that fails before its commit leaves nothing exactly then. */
  lemma LeavesNothingExactly(mode: Mode, refused: bool, script: seq<Fate>)
    requires !EndOf(mode, refused, script).committed
    ensures Stop(mode, refused, script) < Length(mode)
    ensures EndOf(mode, refused, script).world.disk == {} <==> LeavesNothing(mode, refused, script)
  {
    hide Made, Fault, RolledBack, Settled, AllClear, AllCleared, CleanFault, Work, Last, Known;
    var k := Stop(mode, refused, script);
    EndsAs(mode, refused, script);
    StopIs(mode, refused, script, 0);
    FaultExact(mode, refused, script, k);
    DropFirst(script, k);
    FaultKeepsReceipt(mode, k, Before(mode, script, k));
    RollbackExact(mode, Recorded(mode, k), Fault(mode, k, Before(mode, script, k)));
  }

  /** A receipt that was written is whole after any later failing call. */
  lemma FaultKeepsReceipt(mode: Mode, k: nat, w: World)
    requires k < Length(mode) && w.disk == Made(mode, k) && (Next(w).Bad? || k == 4)
    ensures Recorded(mode, k).receipt ==> Pair(Receipt) <= Fault(mode, k, w).disk
  {
    hide Made, Attempt;
    if k >= 7 {
      InMade(mode, k, Data(Receipt));
      InMade(mode, k, Marker(Receipt));
      if k == 8 && mode.IntoExisting? {
        MarkerWritingFrame(w, Draft);
      } else if k == 11 {
        MarkerWritingFrame(w, Candidate);
      }
    }
  }

  lemma MarkerWritingFrame(w: World, file: File)
    requires Next(w).Bad?
    ensures w.disk - Pair(file) <= MarkerWriting(w, file).world.disk
  {
    hide OwnedRemoval, Removal;
    var fate := Next(w);
    var u := After(w, Plain).(disk := if fate.effect.Nothing? then w.disk else w.disk + {Marker(file)},
                              torn := if Half(fate) then w.torn + {file} else w.torn);
    UndoFrame(Entry(Data(file)), u);
    UndoFrame(Owned(file), Removal(u, Data(file)).world);
  }

  // ---- The receipt ----

  lemma UndoSucceeds(t: Target, w: World)
    requires Undo(t, w).ok && Hidden !in Objects(t)
    ensures Undo(t, w).world.disk !! Objects(t)
  {
    hide MarkerAside;
    match t
    case Entry(a) =>
    case Owned(file) =>
      AttemptSucceeds(w, file);
      AttemptSucceeds(Attempt(w, file).world, file);
  }

  lemma AttemptSucceeds(w: World, file: File)
    ensures Attempt(w, file).ok ==> Attempt(w, file).world.disk !! Pair(file)
  {
  }

  lemma {:induction false} UndoAllSucceeds(plan: seq<Target>, c: Count)
    requires Apart(plan) && UndoAll(plan, c).failures == c.failures
    ensures UndoAll(plan, c).world.disk !! AllObjects(plan)
  {
    hide Undo;
    if plan != [] {
      var d := Tally(Undo(plan[0], c.world), c.failures);
      UndoAllFrame(plan[1..], d);
      UndoSucceeds(plan[0], c.world);
      UndoAllSucceeds(plan[1..], d);
      HiddenApart(plan);
    }
  }

  /** A receipt that was written stays if an action before its own fails; if it does not stay
      whole, nothing else that the flags know of is left but the run lock. */
  lemma ReceiptGoesLast(mode: Mode, refused: bool, script: seq<Fate>)
    requires !EndOf(mode, refused, script).committed && Recorded(mode, Stop(mode, refused, script)).receipt
    ensures var k, disk := Stop(mode, refused, script), EndOf(mode, refused, script).world.disk;
            var flags, w := Recorded(mode, k), Fault(mode, k, Before(mode, script, k));
            && k < Length(mode)
            && (Worked(mode, flags, w).failures > 0 ==> Pair(Receipt) <= disk)
            && (!(Pair(Receipt) <= disk) ==> forall a :: a in disk ==>
                  a in Pair(Receipt) || a == RunLock || a == Hidden || (a in w.disk && !Known(mode, flags, a)))
  {
    hide Made, Fault, Worked, RolledBack, Settled, Work, Last, Known, UndoAll;
    var k := Stop(mode, refused, script);
    EndsAs(mode, refused, script);
    StopIs(mode, refused, script, 0);
    DropFirst(script, k);
    var flags, w := Recorded(mode, k), Fault(mode, k, Before(mode, script, k));
    FaultKeepsReceipt(mode, k, Before(mode, script, k));
    var worked := Worked(mode, flags, w);
    var receipt := flags.receipt && worked.failures == 0;
    WorkIsPlan(mode, flags, w);
    RollbackIsPlan(mode, flags, w);
    WorkApart(mode, flags);
    LastApart(flags, receipt);
    UndoAllFrame(Work(mode, flags), Count(w, 0));
    UndoAllFrame(Last(flags, receipt), worked);
    if worked.failures == 0 {
      UndoAllSucceeds(Work(mode, flags), Count(w, 0));
    }
  }

  // ---- After the commit ----

  /** cleanupCommittedReceipt ends without residuals: every call succeeds, except that the
      candidate's marker may fail once with an error that does not say committed. */
  predicate CleansUp(mode: Mode, fates: seq<Fate>) {
    var release := FateAt(fates, 1);
    && FateAt(fates, 0).Good?
    && if mode.ProviderOnly? then FateAt(fates, 1).Good?
       else
         && (release.Bad? ==> !Loud(Moving, release))
         && (StillThere(release) ==> FateAt(fates, 2).Good?)
         && AllGood(Drop(fates, if StillThere(release) then 3 else 2), if mode.Whole? then 2 else 3)
  }

  function CleanupCalls(mode: Mode, fates: seq<Fate>): nat {
    if mode.ProviderOnly? then 2
    else (if StillThere(FateAt(fates, 1)) then 3 else 2) + (if mode.Whole? then 2 else 3)
  }

  /** Which fates after the commit make the result ok: its durability, the clean-up, and the
      run lock's release. */
  predicate Settles(mode: Mode, fates: seq<Fate>) {
    var rest := Drop(fates, 1);
    FateAt(fates, 0).Good? && CleansUp(mode, rest) && FateAt(rest, CleanupCalls(mode, rest)).Good?
  }

  /** What a committed and cleaned-up run has put on disk. */
  function Published(mode: Mode): set<Artifact> {
    Pair(Receipt) + (if mode.IntoExisting? then {Data(Draft)} else {RunDirectory})
  }

  lemma ReleaseExact(w: World, file: File)
    requires Marker(file) in w.disk
    ensures var did, fate := ReleaseWithRetry(w, file), Next(w);
            && (did.ok <==> (fate.Bad? ==> !Loud(Moving, fate)) && (StillThere(fate) ==> FateAt(w.fates, 1).Good?))
            && (did.ok ==> did.world == w.(disk := w.disk - {Marker(file)} + (if Half(fate) then {Hidden} else {}),
                                           fates := Drop(w.fates, if StillThere(fate) then 2 else 1),
                                           loud := did.world.loud))
            && did.world.torn == w.torn
  {
    ThreeFates(w.fates);
  }

  lemma AllGoodFrom(fates: seq<Fate>, n: nat)
    ensures AllGood(fates, n + 1) <==> FateAt(fates, 0).Good? && AllGood(Drop(fates, 1), n)
  {
    forall i: nat ensures FateAt(Drop(fates, 1), i) == FateAt(fates, i + 1) {
      DropAgain(fates, 1, i);
    }
    if FateAt(fates, 0).Good? && AllGood(Drop(fates, 1), n) {
      forall i | 0 <= i < n + 1 ensures FateAt(fates, i).Good? {
        assert i == 0 || FateAt(Drop(fates, 1), i - 1).Good?;
      }
    }
    if AllGood(fates, n + 1) {
      forall i | 0 <= i < n ensures FateAt(Drop(fates, 1), i).Good? {
        assert FateAt(fates, i + 1).Good?;
      }
    }
  }

  lemma RemovalGood(w: World, a: Artifact)
    requires a in w.disk
    ensures var did := Removal(w, a).Done();
            && (did.ok <==> Next(w).Good?)
            && (did.ok ==> did.world == w.(disk := w.disk - {a}, fates := Drop(w.fates, 1)))
            && did.world.torn == w.torn && did.world.saved == w.saved
  {
  }

  lemma UpdatingGood(w: World, state: ReceiptState)
    requires w.torn == {}
    ensures var did := Updating(w, state);
            && (did.ok <==> Next(w).Good?)
            && (did.ok ==> did.world == w.(saved := state, fates := Drop(w.fates, 1)))
            && did.world.disk == w.disk
  {
  }

  /** cleanupCommittedReceipt after its markers: the manifest lock, and the receipt. */
  lemma CleanedUpTail(mode: Mode, w: World)
    requires w.torn == {} && (!mode.ProviderOnly? ==> ManifestLock in w.disk)
    ensures var d := if !mode.ProviderOnly? then Tally(Removal(w, ManifestLock).Done(), 0) else Count(w, 0);
            var e := Tally(Updating(d.world, if d.failures == 0 then CommittedClean else CleanupRequired), d.failures);
            var n := if mode.ProviderOnly? then 1 else 2;
            && (e.failures == 0 <==> AllGood(w.fates, n))
            && (e.failures == 0 ==> e.world == w.(disk := if mode.ProviderOnly? then w.disk else w.disk - {ManifestLock},
                                                   fates := Drop(w.fates, n), saved := CommittedClean))
  {
    hide Removal, Updating;
    var d := if !mode.ProviderOnly? then Tally(Removal(w, ManifestLock).Done(), 0) else Count(w, 0);
    if !mode.ProviderOnly? {
      RemovalGood(w, ManifestLock);
      AllGoodFrom(w.fates, 1);
      DropAgain(w.fates, 1, 1);
    }
    UpdatingGood(d.world, if d.failures == 0 then CommittedClean else CleanupRequired);
    AllGoodFrom(d.world.fates, 0);
  }

  /** Right after the commit rename, with nothing torn. */
  predicate Committed(mode: Mode, w: World) {
    && w.torn == {} && RunLock in w.disk && Hidden !in w.disk
    && (Marker(Candidate) in w.disk <==> !mode.ProviderOnly?)
    && (ManifestLock in w.disk <==> !mode.ProviderOnly?)
    && (Marker(Draft) in w.disk <==> mode.IntoExisting?)
  }

  /** The container that a successful second try leaves behind. */
  function Residue(mode: Mode, release: Fate): set<Artifact> {
    if !mode.ProviderOnly? && Half(release) then {Hidden} else {}
  }

  predicate CleanedUpAs(mode: Mode, w: World, c: Count) {
    && (c.failures == 0 <==> CleansUp(mode, w.fates))
    && (c.failures == 0 ==>
          && c.world.disk == w.disk - {Marker(Candidate), Marker(Draft), ManifestLock} + Residue(mode, FateAt(w.fates, 1))
          && c.world.fates == Drop(w.fates, CleanupCalls(mode, w.fates)) && c.world.saved == CommittedClean)
  }

  lemma CleanedUpAlone(w: World)
    requires Committed(ProviderOnly, w)
    ensures CleanedUpAs(ProviderOnly, w, CleanedUp(ProviderOnly, w))
  {
    hide Updating;
    UpdatingGood(w, CleanupRequired);
    var a := Tally(Updating(w, CleanupRequired), 0);
    if a.failures == 0 {
      CleanedUpTail(ProviderOnly, a.world);
      AllGoodFrom(a.world.fates, 0);
      DropAgain(w.fates, 1, 1);
    }
  }

  lemma ReleasedExact(mode: Mode, w: World)
    requires Committed(mode, w) && !mode.ProviderOnly?
    ensures var e, release := Unlocked(mode, Tally(ReleaseWithRetry(w, Candidate), 0)), Next(w);
            var m, n := if StillThere(release) then 2 else 1, if mode.Whole? then 2 else 3;
            && (e.failures == 0 <==> (release.Bad? ==> !Loud(Moving, release))
                                     && (StillThere(release) ==> FateAt(w.fates, 1).Good?) && AllGood(Drop(w.fates, m), n))
            && (e.failures == 0 ==>
                  && e.world.disk == w.disk - {Marker(Candidate), Marker(Draft), ManifestLock} + Residue(mode, release)
                  && e.world.fates == Drop(Drop(w.fates, m), n) && e.world.saved == CommittedClean)
  {
    hide ReleaseWithRetry, Unlocked, Loud;
    ReleaseExact(w, Candidate);
    var b := Tally(ReleaseWithRetry(w, Candidate), 0);
    if b.failures == 0 {
      CleanedUpRest(mode, b.world);
    } else {
      FailuresStay(mode, b);
    }
  }

  lemma CleanedUpFull(mode: Mode, w: World)
    requires Committed(mode, w) && !mode.ProviderOnly?
    ensures CleanedUpAs(mode, w, CleanedUp(mode, w))
  {
    hide Updating, ReleaseWithRetry, Unlocked, Loud, StillThere;
    UpdatingGood(w, CleanupRequired);
    var a := Tally(Updating(w, CleanupRequired), 0);
    if a.failures > 0 {
      FailuresStay(mode, a);
    } else {
      ReleasedExact(mode, a.world);
      var m := if StillThere(FateAt(w.fates, 1)) then 2 else 1;
      DropAgain(w.fates, 1, 0);
      DropAgain(w.fates, 1, 1);
      DropAgain(w.fates, 1, m);
      DropAgain(w.fates, m + 1, if mode.Whole? then 2 else 3);
    }
  }

  lemma FailuresStay(mode: Mode, b: Count)
    ensures Unlocked(mode, b).failures >= b.failures
  {
  }

  lemma CleanedUpRest(mode: Mode, w: World)
    requires w.torn == {} && ManifestLock in w.disk && (Marker(Draft) in w.disk <==> mode.IntoExisting?) && !mode.ProviderOnly?
    ensures var e, n := Unlocked(mode, Count(w, 0)), if mode.Whole? then 2 else 3;
            && (e.failures == 0 <==> AllGood(w.fates, n))
            && (e.failures == 0 ==> e.world == w.(disk := w.disk - {Marker(Draft), ManifestLock},
                                                   fates := Drop(w.fates, n), saved := CommittedClean))
  {
    hide Updating, Removal;
    if mode.Whole? {
      CleanedUpTail(mode, w);
      assert w.disk - {ManifestLock} == w.disk - {Marker(Draft), ManifestLock};
    } else {
      RemovalGood(w, Marker(Draft));
      AllGoodFrom(w.fates, 2);
      var c := Tally(Removal(w, Marker(Draft)).Done(), 0);
      if c.failures == 0 {
        CleanedUpTail(mode, c.world);
        DropAgain(w.fates, 1, 2);
        assert c.world.disk - {ManifestLock} == w.disk - {Marker(Draft), ManifestLock};
      }
    }
  }

  lemma SettledExact(mode: Mode, w: World)
    requires Committed(mode, w)
    ensures var c, rest := Settled(mode, w), Drop(w.fates, 1);
            && (c.failures == 0 <==> Settles(mode, w.fates))
            && (c.failures == 0 ==>
                  && c.world.disk == w.disk - {Marker(Candidate), Marker(Draft), ManifestLock, RunLock}
                                     + Residue(mode, FateAt(w.fates, 2))
                  && c.world.saved == CommittedClean)
  {
    hide Updating, Removal, CleanedUp, CleansUp, CleanupCalls, Residue, CleanedUpAs;
    if Next(w).Good? {
      var v := After(w, Plain);
      CleanedUpExact(mode, v);
      DropAgain(w.fates, 1, 1);
      RunLockGoes(mode, v, CleanedUp(mode, v));
    }
  }

  lemma CleanedUpExact(mode: Mode, w: World)
    requires Committed(mode, w)
    ensures CleanedUpAs(mode, w, CleanedUp(mode, w))
  {
    hide CleanedUp, Committed, CleanedUpAs;
    if mode.ProviderOnly? {
      CleanedUpAlone(w);
    } else {
      CleanedUpFull(mode, w);
    }
  }

  lemma RunLockGoes(mode: Mode, w: World, a: Count)
    requires RunLock in w.disk && CleanedUpAs(mode, w, a)
    ensures var c := Tally(Removal(a.world, RunLock).Done(), a.failures);
            && (c.failures == 0 <==> CleansUp(mode, w.fates) && FateAt(w.fates, CleanupCalls(mode, w.fates)).Good?)
            && (c.failures == 0 ==>
                  && c.world.disk == w.disk - {Marker(Candidate), Marker(Draft), ManifestLock, RunLock}
                                     + Residue(mode, FateAt(w.fates, 1))
                  && c.world.saved == CommittedClean)
  {
    hide Removal, CleansUp, CleanupCalls;
    if a.failures == 0 {
      RemovalGood(a.world, RunLock);
      DropAgain(w.fates, CleanupCalls(mode, w.fates), 0);
    }
  }

  /** The result is ok exactly if the checks pass, every call up to the commit succeeds and the
      calls after it settle; then exactly what was to be published is there, with a clean receipt,
      and one container if the candidate's marker went into it before its first try failed. */
  lemma OkExactly(mode: Mode, refused: bool, script: seq<Fate>)
    ensures var end, n := EndOf(mode, refused, script), Length(mode);
            && (end.result.ok <==> !refused && AllGood(script, n) && Settles(mode, Drop(script, n)))
            && (end.result.ok ==>
                  && end.world.disk == Published(mode) + Residue(mode, FateAt(script, n + 2))
                  && end.world.saved == CommittedClean)
  {
    hide Settled, RolledBack, Fault, Before, Settles, Committed;
    CommitsExactly(mode, refused, script);
    var n := Length(mode);
    if EndOf(mode, refused, script).committed {
      AtCommit(mode, script);
      SettledExact(mode, Before(mode, script, n));
      DropAgain(script, n, 2);
    }
  }

  lemma AtCommit(mode: Mode, script: seq<Fate>)
    ensures var w := Before(mode, script, Length(mode));
            && Committed(mode, w) && w.fates == Drop(script, Length(mode))
            && w.disk - {Marker(Candidate), Marker(Draft), ManifestLock, RunLock} == Published(mode)
  {
    hide Made;
    var w := Before(mode, script, Length(mode));
    forall a ensures a in w.disk <==> Expected(mode, Length(mode), a) {
      InMade(mode, Length(mode), a);
    }
  }

  /** Without failures and refusals the result is ok and nothing is left over. */
  lemma CalmRunIsOk(mode: Mode, script: seq<Fate>)
    requires forall i :: 0 <= i < |script| ==> script[i].Good?
    ensures var end := EndOf(mode, false, script);
            end.result.ok && end.committed && end.world.disk == Published(mode) && end.world.saved == CommittedClean
  {
    hide EndOf;
    OkExactly(mode, false, script);
    CommitsExactly(mode, false, script);
    CalmSettles(mode, script, Length(mode));
  }

  lemma CalmSettles(mode: Mode, script: seq<Fate>, n: nat)
    requires forall i :: 0 <= i < |script| ==> script[i].Good?
    ensures AllGood(script, n) && Settles(mode, Drop(script, n)) && FateAt(script, n + 2).Good?
  {
  }

  /** What was published is never taken back. */
  lemma CommitIsKept(mode: Mode, refused: bool, script: seq<Fate>)
    ensures EndOf(mode, refused, script).committed ==> Published(mode) <= EndOf(mode, refused, script).world.disk
  {
    hide Before, RolledBack, Fault, Settled, Committed;
    AtCommit(mode, script);
    SettledFrame(mode, Before(mode, script, Length(mode)));
  }

  predicate Keeps(w: World, v: World) {
    w.disk - {Marker(Candidate), Marker(Draft), ManifestLock, RunLock} <= v.disk
  }

  lemma UnlockedKeeps(mode: Mode, b: Count)
    ensures Keeps(b.world, Unlocked(mode, b).world)
  {
    hide Removal, Updating;
    var c := if b.failures == 0 && mode.IntoExisting? then Tally(Removal(b.world, Marker(Draft)).Done(), 0) else b;
    var d := if !mode.ProviderOnly? then Tally(Removal(c.world, ManifestLock).Done(), c.failures) else c;
    EntryKeeps(b.world, Marker(Draft));
    EntryKeeps(c.world, ManifestLock);
    UpdateKeeps(d.world, if d.failures == 0 then CommittedClean else CleanupRequired);
  }

  lemma EntryKeeps(w: World, a: Artifact)
    ensures w.disk - {a} <= Removal(w, a).world.disk
  {
  }

  lemma UpdateKeeps(w: World, state: ReceiptState)
    ensures Updating(w, state).world.disk == w.disk
  {
  }

  lemma SettledFrame(mode: Mode, w: World)
    ensures Keeps(w, Settled(mode, w).world)
  {
    hide Removal, Updating, Unlocked;
    var v := After(w, Plain);
    UpdateKeeps(v, CleanupRequired);
    var a := Tally(Updating(v, CleanupRequired), 0);
    EntryKeeps(a.world, Marker(Candidate));
    EntryKeeps(Removal(a.world, Marker(Candidate)).world, Marker(Candidate));
    var b := if a.failures == 0 && !mode.ProviderOnly? then Tally(ReleaseWithRetry(a.world, Candidate), 0) else a;
    UnlockedKeeps(mode, b);
    var c := CleanedUp(mode, v);
    UpdateKeeps(c.world, CleanupRequired);
    var d := if Next(w).Good? then c else Tally(Updating(c.world, CleanupRequired), c.failures + 1);
    EntryKeeps(d.world, RunLock);
  }

  // ---- One fault ----

  /** No call fails from here on. */
  predicate Calm(fates: seq<Fate>) {
    forall i :: 0 <= i < |fates| ==> fates[i].Good?
  }

  lemma {:induction false} ObjectsOf(plan: seq<Target>, t: Target)
    requires t in plan
    ensures Objects(t) <= AllObjects(plan)
  {
    if t != plan[0] {
      ObjectsOf(plan[1..], t);
    }
  }

  /** Data never lies there without its marker. */
  predicate Paired(plan: seq<Target>, w: World) {
    forall file :: Owned(file) in plan && Data(file) in w.disk ==> Marker(file) in w.disk
  }

  lemma CalmClears(t: Target, w: World)
    requires w.torn == {} && Calm(w.fates) && (t.Owned? && Data(t.file) in w.disk ==> Marker(t.file) in w.disk)
    ensures Clears(t, w) && Succeeds(t, w) && Calm(Cleared(t, w).fates)
  {
  }

  lemma {:induction false} CalmAllClear(plan: seq<Target>, w: World, strict: bool)
    requires Apart(plan) && w.torn == {} && Calm(w.fates) && Paired(plan, w)
    ensures AllClear(plan, w, strict)
    ensures var v := AllCleared(plan, w);
            v.torn == {} && Calm(v.fates) && v.disk == w.disk - AllObjects(plan)
  {
    hide Clears, Succeeds, Calm;
    if plan != [] {
      CalmClears(plan[0], w);
      var v := Cleared(plan[0], w);
      forall file | Owned(file) in plan[1..] && Data(file) in v.disk ensures Marker(file) in v.disk {
        ObjectsOf(plan[1..], Owned(file));
        assert Owned(file) in plan;
        assert Marker(file) in Objects(Owned(file));
      }
      CalmAllClear(plan[1..], v, strict);
    }
  }

  /** Which single faults leave nothing, when every clean-up call succeeds. */
  predicate CleanAlone(mode: Mode, k: nat, fate: Fate)
    requires fate.Bad?
  {
    if k == 1 then false
    else if k == 0 || k == 5 || k == 10 || (k == 7 && mode.IntoExisting?) then fate.effect.Nothing?
    else if k == 3 || k == 14 then fate.effect.Nothing? || fate.effect.Isolated?
    else if k == 6 || k == 11 || k == 13 || (k in {8, 9} && mode.IntoExisting?) then !Half(fate)
    else true
  }

  /** Call `k` is the only one that fails. */
  predicate Only(script: seq<Fate>, k: nat) {
    FateAt(script, k).Bad? && forall i :: 0 <= i < |script| && i != k ==> script[i].Good?
  }

  /** With a single fault before the commit, nothing is left and committed is reported
      exactly as that fault alone decides. */
  lemma OneFault(mode: Mode, script: seq<Fate>, k: nat)
    requires k < Length(mode) && Only(script, k)
    ensures var end, fate := EndOf(mode, false, script), FateAt(script, k);
            && !end.committed
            && (end.result.committed <==> Loud(KindOf(mode, k), fate))
            && (end.world.disk == {} <==> CleanAlone(mode, k, fate))
  {
    hide EndOf, Before, Fault, CleanFault, CleanAlone, AllClear, AllCleared, Work, Last, Recorded, SaysCommitted;
    StopsAt(mode, false, script, k);
    EndsAs(mode, false, script);
    ReportsExactly(mode, false, script);
    LeavesNothingExactly(mode, false, script);
    OneFaultSays(mode, script, k);
    OneFaultClears(mode, script, k);
  }

  lemma CalmAfter(script: seq<Fate>, k: nat)
    requires Only(script, k)
    ensures Calm(Drop(script, k + 1)) && Drop(Drop(script, k), 1) == Drop(script, k + 1)
  {
    DropFirst(script, k);
  }

  lemma CalmDrop(fates: seq<Fate>, n: nat)
    requires Calm(fates)
    ensures Calm(Drop(fates, n))
  {
  }

  lemma CalmTurn(t: Target, disk: set<Artifact>, torn: set<File>, fates: seq<Fate>)
    requires Calm(fates)
    ensures !TurnOf(t, disk, torn, fates).loud
  {
    CalmFates(fates);
    if t.Owned? {
      var m := if Data(t.file) in disk then 2 else 1;
      assert FateAt(fates, TryCalls(m, fates) - 1).Good?;
    }
  }

  lemma {:induction false} CalmTurns(plan: seq<Target>, disk: set<Artifact>, torn: set<File>, fates: seq<Fate>)
    requires Calm(fates)
    ensures !Turns(plan, disk, torn, fates).loud
  {
    hide TurnOf, Calm;
    if plan != [] {
      var turn := TurnOf(plan[0], disk, torn, fates);
      CalmTurn(plan[0], disk, torn, fates);
      CalmDrop(fates, turn.calls);
      CalmTurns(plan[1..], disk, torn, Drop(fates, turn.calls));
    }
  }

  lemma CalmFault(mode: Mode, k: nat, fates: seq<Fate>)
    requires k < Length(mode) && FateAt(fates, 0).Bad? && Calm(Drop(fates, 1))
    ensures FaultTurn(mode, k, fates).loud <==> Loud(KindOf(mode, k), FateAt(fates, 0))
    ensures FaultTurn(mode, k, fates).calls > 0
  {
    var rest := Drop(fates, 1);
    CalmFates(rest);
    DropAgain(fates, 1, 0);
    DropAgain(fates, 1, 1);
    CalmDrop(rest, 1);
    CalmFates(Drop(fates, 2));
    assert FateAt(Drop(fates, 2), TryCalls(1, Drop(fates, 2)) - 1).Good?;
    assert FateAt(rest, 0).Good?;
  }

  lemma OneFaultSays(mode: Mode, script: seq<Fate>, k: nat)
    requires k < Length(mode) && Only(script, k) && Stop(mode, false, script) == k
    ensures SaysCommitted(mode, false, script) <==> Loud(KindOf(mode, k), FateAt(script, k))
  {
    hide SaysFrom, Fault, Calm, Loud;
    DropFirst(script, k);
    CalmAfter(script, k);
    var left := Fault(mode, k, Before(mode, script, k));
    CalmSays(mode, k, left.disk, left.torn, Drop(script, k));
  }

  lemma CalmSays(mode: Mode, k: nat, disk: set<Artifact>, torn: set<File>, fates: seq<Fate>)
    requires k < Length(mode) && FateAt(fates, 0).Bad? && Calm(Drop(fates, 1))
    ensures SaysFrom(mode, k, disk, torn, fates) <==> Loud(KindOf(mode, k), FateAt(fates, 0))
  {
    hide FaultTurn, Turns, Calm, Work, Last, Loud, Recorded;
    var flags, fault := Recorded(mode, k), FaultTurn(mode, k, fates);
    CalmFault(mode, k, fates);
    CalmFrom(fates, fault.calls);
    CalmTurns(Work(mode, flags), disk, torn, Drop(fates, fault.calls));
    var work := Turns(Work(mode, flags), disk, torn, Drop(fates, fault.calls));
    CalmFrom(fates, fault.calls + work.calls);
    CalmTurns(Last(flags, flags.receipt && work.ok), disk, torn, Drop(fates, fault.calls + work.calls));
  }

  lemma CalmFrom(fates: seq<Fate>, n: nat)
    requires n > 0 && Calm(Drop(fates, 1))
    ensures Calm(Drop(fates, n))
  {
    DropAgain(fates, 1, n - 1);
    CalmDrop(Drop(fates, 1), n - 1);
  }

  lemma CalmFates(fates: seq<Fate>)
    requires Calm(fates)
    ensures forall i: nat {:trigger FateAt(fates, i)} :: FateAt(fates, i).Good?
    ensures forall m: nat, n: nat {:trigger Destroyed(m, Drop(fates, n))} :: Destroyed(m, Drop(fates, n))
  {
    forall m: nat, n: nat ensures Destroyed(m, Drop(fates, n)) {
      forall i: nat ensures FateAt(Drop(fates, n), i).Good? {
        DropAgain(fates, n, i);
      }
    }
  }

  /** These faults leave what the rollback goes after in vain: candidate data without its
      marker, a marker that cannot be read, a receipt torn by its update. */
  predicate Unremovable(k: nat, fate: Fate)
    requires fate.Bad?
  {
    (k == 10 && !fate.effect.Nothing?) || (k in {11, 13} && Half(fate))
  }

  lemma CleanFaultAlone(mode: Mode, k: nat, fates: seq<Fate>)
    requires k < Length(mode) && FateAt(fates, 0).Bad? && Calm(Drop(fates, 1))
    ensures CleanFault(mode, k, fates) && !Unremovable(k, FateAt(fates, 0)) <==> CleanAlone(mode, k, FateAt(fates, 0))
    ensures FateAt(fates, 0).effect.Applied? || FateAt(fates, 0).effect.Nothing? ==> Unwritten(fates)
  {
    hide Calm, Destroyed;
    var rest := Drop(fates, 1);
    CalmFates(rest);
    DropAgain(fates, 1, 0);
    DropAgain(fates, 1, 1);
    assert Drop(rest, 0) == rest;
    assert FateAt(fates, 1) == FateAt(rest, 0);
    assert Drop(fates, 2) == Drop(rest, 1);
    DropAgain(rest, 1, 0);
    DropAgain(rest, 1, 1);
    assert Destroyed(1, Drop(rest, 1)) && Destroyed(2, Drop(rest, 1));
    assert FateAt(Drop(rest, 1), 0).Good?;
    assert Drop(Drop(rest, 1), 0) == Drop(rest, 1);
  }

  lemma AloneFates(mode: Mode, k: nat, w: World)
    requires k < Length(mode) && w.disk == Made(mode, k) && w.torn == {} && !w.loud && Next(w).Bad? && Calm(Drop(w.fates, 1))
    ensures Calm(Fault(mode, k, w).fates)
  {
    hide Made, Fault, FaultTurn, Calm;
    FaultTurnExact(mode, k, w);
    CalmFault(mode, k, w.fates);
    CalmFrom(w.fates, FaultTurn(mode, k, w.fates).calls);
  }

  /** After a fault that leaves nothing alone, every pair that the rollback goes after is
      readable, and no more calls fail. */
  lemma AloneFault(mode: Mode, k: nat, w: World)
    requires k < Length(mode) && w.disk == Made(mode, k) && w.torn == {} && !w.loud && Next(w).Bad? && Calm(Drop(w.fates, 1))
    requires CleanAlone(mode, k, Next(w))
    ensures var v := Fault(mode, k, w);
            && v.torn == {} && Calm(v.fates)
            && forall file: File :: Known(mode, Recorded(mode, k), Data(file)) && Data(file) in v.disk ==> Marker(file) in v.disk
  {
    hide Made, MarkerWriting, FaultTurn, CleanFault, Unwritten, Uncontained;
    forall a ensures a in w.disk <==> Expected(mode, k, a) {
      InMade(mode, k, a);
    }
    AloneFates(mode, k, w);
    CleanFaultAlone(mode, k, w.fates);
    if k == 6 || k == 11 || (k == 8 && mode.IntoExisting?) {
      var file := if k == 6 then Receipt else if k == 11 then Candidate else Draft;
      MarkerWritingExact(w, file);
      MarkerWritingTorn(w, file);
    }
  }

  lemma MarkerWritingTorn(w: World, file: File)
    requires Next(w).Bad?
    ensures MarkerWriting(w, file).world.torn == if Half(Next(w)) then w.torn + {file} else w.torn
  {
    hide Attempt;
    var fate := Next(w);
    var u := After(w, Plain).(disk := if fate.effect.Nothing? then w.disk else w.disk + {Marker(file)},
                              torn := if Half(fate) then w.torn + {file} else w.torn);
    UndoFrame(Entry(Data(file)), u);
    UndoFrame(Owned(file), Removal(u, Data(file)).world);
  }

  lemma {:induction false} AllClearedDisk(plan: seq<Target>, w: World)
    ensures var v := AllCleared(plan, w);
            v.disk == w.disk - AllObjects(plan) && v.torn == w.torn
  {
    if plan != [] {
      AllClearedDisk(plan[1..], Cleared(plan[0], w));
    }
  }

  lemma AloneClears(mode: Mode, flags: Flags, w: World)
    requires w.torn == {} && Calm(w.fates)
    requires forall file: File :: Known(mode, flags, Data(file)) && Data(file) in w.disk ==> Marker(file) in w.disk
    ensures AllClear(Work(mode, flags), w, flags.receipt)
    ensures AllClear(Last(flags, flags.receipt), AllCleared(Work(mode, flags), w), false)
  {
    hide AllClear, AllCleared, Work, Last, Calm, AllObjects, Apart;
    var work, last := Work(mode, flags), Last(flags, flags.receipt);
    WorkApart(mode, flags);
    LastApart(flags, flags.receipt);
    forall file | Owned(file) in work && Data(file) in w.disk ensures Marker(file) in w.disk {
      ObjectsOf(work, Owned(file));
      assert Data(file) in Objects(Owned(file));
    }
    CalmAllClear(work, w, flags.receipt);
    var v := AllCleared(work, w);
    forall file | Owned(file) in last && Data(file) in v.disk ensures Marker(file) in v.disk {
      ObjectsOf(last, Owned(file));
      assert Data(file) in Objects(Owned(file));
      assert file.Receipt?;
    }
    CalmAllClear(last, v, false);
  }

  /** A clean-up that cannot read the marker it needs leaves its objects. */
  lemma UnreadableFirst(plan: seq<Target>, w: World, file: File, strict: bool)
    requires plan != [] && plan[0] == Owned(file) && !(w.disk !! Pair(file)) && !Readable(w, file)
    ensures !AllClear(plan, w, strict)
  {
  }

  lemma CandidateStays(mode: Mode, k: nat, w: World)
    requires k in {10, 11} && k < Length(mode) && w.disk == Made(mode, k) && w.torn == {} && Next(w).Bad?
    requires Unremovable(k, Next(w)) && CleanFault(mode, k, w.fates)
    ensures !AllClear(Work(mode, Recorded(mode, k)), Fault(mode, k, w), Recorded(mode, k).receipt)
  {
    hide MarkerWriting, Made, AllClear, Unwritten, Uncontained, NoContainer;
    InMade(mode, k, Data(Candidate));
    InMade(mode, k, Marker(Candidate));
    InMade(mode, k, Hidden);
    var v := Fault(mode, k, w);
    if k == 11 {
      MarkerWritingExact(w, Candidate);
      MarkerWritingTorn(w, Candidate);
      HalfIsNotUnwritten(w.fates);
    } else {
      assert Data(Candidate) in v.disk * Pair(Candidate);
    }
    UnreadableFirst(Work(mode, Recorded(mode, k)), v, Candidate, Recorded(mode, k).receipt);
  }

  lemma ReceiptStays(mode: Mode, w: World)
    requires !mode.ProviderOnly? && w.disk == Made(mode, 13) && w.torn == {} && Half(Next(w))
    ensures var v, flags := Fault(mode, 13, w), Recorded(mode, 13);
            !AllClear(Last(flags, flags.receipt), AllCleared(Work(mode, flags), v), false)
  {
    hide Made, AllClear, AllCleared, Work;
    InMade(mode, 13, Marker(Receipt));
    var v, flags := Fault(mode, 13, w), Recorded(mode, 13);
    AllClearedDisk(Work(mode, flags), v);
    WorkApart(mode, flags);
    assert Marker(Receipt) in AllCleared(Work(mode, flags), v).disk * Pair(Receipt);
    UnreadableFirst(Last(flags, flags.receipt), AllCleared(Work(mode, flags), v), Receipt, false);
  }

  lemma UnremovableStays(mode: Mode, refused: bool, script: seq<Fate>, k: nat)
    requires k < Length(mode) && Stop(mode, refused, script) == k && FateAt(script, k).Bad?
    requires Unremovable(k, FateAt(script, k))
    ensures !LeavesNothing(mode, refused, script)
  {
    hide Made, Fault, AllClear, AllCleared, Work, Last, CleanFault;
    DropFirst(script, k);
    if CleanFault(mode, k, Drop(script, k)) {
      if k == 13 {
        ReceiptStays(mode, Before(mode, script, k));
      } else {
        CandidateStays(mode, k, Before(mode, script, k));
      }
    }
  }

  lemma HalfIsNotUnwritten(fates: seq<Fate>)
    requires Half(FateAt(fates, 0))
    ensures !Unwritten(fates)
  {
  }

  lemma OneFaultClears(mode: Mode, script: seq<Fate>, k: nat)
    requires k < Length(mode) && Only(script, k) && Stop(mode, false, script) == k
    ensures LeavesNothing(mode, false, script) <==> CleanAlone(mode, k, FateAt(script, k))
  {
    hide Fault, CleanFault, CleanAlone, AllClear, AllCleared, Work, Last, Recorded, Made, Calm;
    var w, flags := Before(mode, script, k), Recorded(mode, k);
    var v := Fault(mode, k, w);
    DropFirst(script, k);
    CalmAfter(script, k);
    CleanFaultAlone(mode, k, Drop(script, k));
    if CleanAlone(mode, k, FateAt(script, k)) {
      AloneFault(mode, k, w);
      AloneClears(mode, flags, v);
    } else if Unremovable(k, FateAt(script, k)) {
      UnremovableStays(mode, false, script, k);
    }
  }

  // ---- One promotion ----

  /** One promotion under any pattern of call outcomes. */
  method Promote(mode: Mode, refused: bool, script: seq<Fate>)
    returns (run: PromotionRun, r: Result, ghost workFailures: nat)
    ensures run.committed <==> !refused && AllGood(script, Length(mode))
    ensures run.committed ==> r.committed && run.rollbackActions == 0 && Published(mode) <= run.disk
    ensures r.ok <==> run.committed && Settles(mode, Drop(script, Length(mode)))
    ensures r.ok ==> run.disk == Published(mode) + Residue(mode, FateAt(script, Length(mode) + 2))
    ensures r.ok ==> run.saved == CommittedClean
    ensures !run.committed ==> Stop(mode, refused, script) < Length(mode)
    ensures !run.committed ==> (r.committed <==> SaysCommitted(mode, refused, script))
    ensures !run.committed ==> (run.disk == {} <==> LeavesNothing(mode, refused, script))
    ensures !run.committed && Stop(mode, refused, script) >= 7 && workFailures > 0 ==> Pair(Receipt) <= run.disk
  {
    hide EndOf, Settles, SaysCommitted, LeavesNothing, Worked, Fault, Before;
    run := new PromotionRun(mode, refused, script);
    CommitsExactly(mode, refused, script);
    OkExactly(mode, refused, script);
    ReportsExactly(mode, refused, script);
    CommitIsKept(mode, refused, script);
    EndsAs(mode, refused, script);
    if !EndOf(mode, refused, script).committed {
      LeavesNothingExactly(mode, refused, script);
      if Stop(mode, refused, script) >= 7 {
        ReceiptGoesLast(mode, refused, script);
      }
    }
    r, workFailures := run.Run();
  }

  // ---- Inputs on which the promises fail ----

  lemma StopsAt(mode: Mode, refused: bool, script: seq<Fate>, k: nat)
    requires k < Length(mode) && !Passes(refused, script, k)
    requires forall i :: 0 <= i < k ==> Passes(refused, script, i)
    ensures Stop(mode, refused, script) == k
  {
    hide Passes;
    StopIs(mode, refused, script, 0);
  }

  /** Both files are isolated, then the marker cannot be read back: that error does not say
      committed, the second try finds both paths absent, and the clean-up succeeds with the
      pair stranded in its containers. */
  lemma RetryStrands(w: World, file: File)
    requires Hidden !in w.disk && Readable(w, file) && AllGood(w.fates, Moves(w, file))
    requires !Gone(FateAt(w.fates, Moves(w, file))) && !Loud(Moving, FateAt(w.fates, Moves(w, file)))
    ensures OwnedRemoval(w, file)
         == Did(w.(disk := w.disk - Pair(file) + {Hidden}, fates := Drop(w.fates, Moves(w, file) + 1)), true)
  {
    ThreeFates(w.fates);
    var first := Attempt(w, file);
    assert FateAt(w.fates, 0).Good?;
    assert first.quiet && first.world.disk == w.disk - Pair(file) + {Hidden};
    Absent(first.world, file);
  }

  /** The promise that a failure whose clean-up succeeds leaves nothing fails when the staging
      directory's owner marker cannot be written: the directory exists, its flag does not. */
  method StagingOutlivesRollback() returns (run: PromotionRun, r: Result)
    ensures !run.committed && !r.committed && r.cleanupFailures == 0 && run.disk == {Staging}
  {
    run := new PromotionRun(Whole, false, [Good, Bad(Nothing, false)]);
    StopsAt(Whole, false, run.script, 1);
    ghost var before;
    r, before := run.Run();
  }

  /** If that marker was created and then failed, the result even says committed. */
  method StagingSaysCommitted() returns (run: PromotionRun, r: Result)
    ensures !run.committed && r.committed && r.cleanupFailures == 0 && run.disk == {Staging}
  {
    run := new PromotionRun(Whole, false, [Good, Bad(Applied, false)]);
    StopsAt(Whole, false, run.script, 1);
    ghost var before;
    r, before := run.Run();
  }

  /** So it does when the run lock was published and its durability not confirmed. */
  method CommittedWithoutCommit() returns (run: PromotionRun, r: Result)
    ensures r.committed && !run.committed && RunLock in run.disk
  {
    run := new PromotionRun(Whole, false, [Good, Good, Good, Bad(Applied, true)]);
    StopsAt(Whole, false, run.script, 3);
    ghost var before;
    r, before := run.Run();
  }

  lemma CalmUndo(t: Target, w: World)
    requires w.fates == [] && (t.Owned? ==> Readable(w, t.file))
    ensures Undo(t, w) == Did(w.(disk := w.disk - Objects(t)), true)
  {
  }

  lemma CandidateStranded(script: seq<Fate>)
    requires Stop(Whole, false, script) == 12
    requires Drop(script, 12) == [Bad(Nothing, false), Good, Good, Bad(Isolated, false)]
    ensures var end := EndOf(Whole, false, script);
            !end.committed && end.result.cleanupFailures == 0 && end.world.disk == {Hidden}
  {
    hide Made, Undo;
    var w := After(Before(Whole, script, 12), Plain);
    forall a ensures a in w.disk <==> a in {RunLock, RunDirectory} + Pair(Receipt) + Pair(Candidate) {
      InMade(Whole, 12, a);
    }
    assert w.fates == [Good, Good, Bad(Isolated, false)];
    StrandedFirst(w);
    var a := Acted(true, Owned(Candidate), Count(w, 0));
    CalmUndo(Entry(RunDirectory), a.world);
    var b := Acted(true, Entry(RunDirectory), a);
    assert Worked(Whole, Recorded(Whole, 12), w) == b;
    CalmUndo(Owned(Receipt), b.world);
    var c := Acted(true, Owned(Receipt), b);
    CalmUndo(Entry(RunLock), c.world);
  }

  lemma StrandedFirst(w: World)
    requires Hidden !in w.disk && Readable(w, Candidate) && Data(Candidate) in w.disk
    requires w.fates == [Good, Good, Bad(Isolated, false)]
    ensures Undo(Owned(Candidate), w) == Did(w.(disk := w.disk - Pair(Candidate) + {Hidden}, fates := []), true)
  {
    hide OwnedRemoval;
    assert Drop(w.fates, 3) == [] && Moves(w, Candidate) == 2;
    assert FateAt(w.fates, 2) == Bad(Isolated, false);
    RetryStrands(w, Candidate);
  }

  /** The verification fails and every rollback action succeeds, the candidate's with its second
      try: the candidate and its marker are left in private directories that no error names. */
  method RollbackStrandsCandidate() returns (run: PromotionRun, r: Result)
    ensures !run.committed && r.cleanupFailures == 0 && run.disk == {Hidden}
  {
    var script := seq(12, i => Good) + [Bad(Nothing, false), Good, Good, Bad(Isolated, false)];
    run := new PromotionRun(Whole, false, script);
    StopsAt(Whole, false, run.script, 12);
    CandidateStranded(script);
    ghost var before;
    r, before := run.Run();
  }

  lemma OkStranded(script: seq<Fate>)
    requires |script| == 19 && AllGood(script, 18) && script[18] == Bad(Isolated, false)
    ensures var end := EndOf(Whole, false, script);
            end.result.ok && end.world.disk == Published(Whole) + {Hidden}
  {
    hide EndOf, Published;
    OkExactly(Whole, false, script);
    forall i: nat ensures FateAt(Drop(Drop(script, 16), 1), i) == FateAt(script, 17 + i) {
      DropAgain(script, 16, 1);
      DropAgain(script, 17, i);
    }
    DropAgain(script, 16, 0);
    DropAgain(script, 16, 1);
    DropAgain(script, 17, 2);
    forall i | 0 <= i < 16 ensures FateAt(script, i).Good? {}
  }

  /** A result is ok with a private directory left: after the commit the candidate's marker was
      isolated but could not be read back. */
  method OkWithStrandedMarker() returns (run: PromotionRun, r: Result)
    ensures r.ok && run.disk == Published(Whole) + {Hidden}
  {
    var script := seq(18, i => Good) + [Bad(Isolated, false)];
    run := new PromotionRun(Whole, false, script);
    OkStranded(script);
    hide EndOf;
    ghost var before;
    r, before := run.Run();
  }
}
