/** Every promotion of release evidence, of any run ids, interleaved call by call.

    Each promotion (a transaction) stages its bundle privately, takes the run lock, reads
    the receipt an earlier promotion may have left, writes its own receipt, places the run
    directory or the draft, and commits by one rename of the manifest (or, provider-only,
    of the run directory).  Every call may succeed, fail, or fail after having applied,
    and a process may crash between any two calls.  Digests are taken injective: a
    digest stands for the content itself. */
module PromotionProtocol {
  import opened Options
  import opened Receipts

  /** What a promotion was asked to publish; equal requests have equal fingerprints. */
  datatype Request = Request(run: int, providerOnly: bool, provider: int, draft: int, product: int)

  datatype RunDirectory = RunDirectory(owner: int, provider: int, draft: Option<int>)

  /** The live manifest; `writer` stands for the generation of the renamed candidate. */
  datatype Manifest = Manifest(run: int, provider: int, draft: int, product: int, writer: int)

  /** `readable` is false after a torn write: the next read refuses the receipt. */
  datatype Receipt = Receipt(
    txn: int, request: Request, state: ReceiptState, reusedRun: bool, cleanedBy: Option<int>, readable: bool)

  datatype Disk = Disk(
    runs: map<int, RunDirectory>,
    manifest: Option<Manifest>,
    receipts: map<int, Receipt>,
    runLocks: map<int, int>,
    manifestLock: Option<int>,
    candidates: set<int>,          // candidate manifests not yet renamed, by transaction
    candidateMarkers: set<int>,    // their owner markers
    draftMarkers: map<int, int>,   // owner marker of the draft copied into a run directory
    committed: map<int, Request>)  // history: whose commit rename has run, and for what

  datatype Phase =
    | Staged
    | Locked
    | Recovering(stage: int)
    | Upgrading
    | Cleared
    | Inspected
    | Recorded
    | Placed
    | Proposed
    | Intended
    | Fenced
    | Cleaning(stage: int)
    | RollingBack(stage: int)
    | Ended

  /** The local variables of one promotion. */
  datatype Local = Local(
    request: Request,
    phase: Phase,
    tookOverStale: bool,   // the run lock was recovered from a dead owner
    existing: bool,        // existingRunDirectory
    placedRun: bool,       // runPublished
    placedDraft: bool,     // draftPublished
    recorded: bool,        // receiptWritten
    fenced: bool,          // the manifest lock's handle is held
    faulty: bool,          // some clean-up call has failed
    late: bool)            // the commit applied, but its durability call failed

  datatype State = State(disk: Disk, txns: map<int, Local>, dead: set<int>)

  /** How a call ends.  FailedApplied took full effect and then failed; Torn stopped half
      way: where only a receipt can be half written, the rest of the calls treat it alike. */
  datatype Outcome = Applied | Failed | FailedApplied | Torn

  datatype Step = Begin(txn: int, request: Request) | Call(txn: int, outcome: Outcome) | Crash(txn: int)

  /** What one call does: the new disk and the caller's new local variables. */
  datatype Effect = Effect(disk: Disk, local: Local)

  function Init(): State {
    State(Disk(map[], None, map[], map[], None, {}, {}, map[], map[]), map[], {})
  }

  // ---- Commit detection ----

  function ManifestOf(request: Request, writer: int): Manifest {
    Manifest(request.run, request.provider, request.draft, request.product, writer)
  }

  /** receiptCommitIsPresent */
  predicate CommitPresent(d: Disk, receipt: Receipt) {
    if receipt.state.Prepared? then false
    else if receipt.request.providerOnly then
      receipt.request.run in d.runs && d.runs[receipt.request.run].provider == receipt.request.provider
    else
      d.manifest.Some? && d.manifest.value.(writer := receipt.txn) == ManifestOf(receipt.request, receipt.txn)
  }

  // ---- Up to the receipt ----

  /** acquireDirectoryLock on the run lock; `alive` are the promotions still running.  A
      lock published by a call that then failed stays behind, owned by nobody alive. */
  function TakeRunLock(d: Disk, t: int, l: Local, alive: set<int>, o: Outcome): Effect {
    var run := l.request.run;
    var taken := run in d.runLocks && d.runLocks[run] in alive;
    Effect(if o.Failed? || taken then d else d.(runLocks := d.runLocks[run := t]),
           l.(phase := if o.Failed? then Ended else if taken then Staged else if o.Applied? then Locked else Ended,
              tookOverStale := run in d.runLocks))
  }

  /** What follows a committed receipt that needs nothing more. */
  function Proceed(l: Local, receipt: Receipt): Phase {
    if receipt.request != l.request && receipt.request.providerOnly && !l.request.providerOnly
    then Upgrading else Cleared
  }

  /** readCleanupReceipt, and what its commit state means for this promotion */
  function ReadReceipt(d: Disk, l: Local, o: Outcome): Effect {
    var run := l.request.run;
    Effect(d, l.(faulty := false, phase :=
      if !o.Applied? then RollingBack(0)
      else if run !in d.receipts then Cleared
      else if !d.receipts[run].readable || !CommitPresent(d, d.receipts[run]) then RollingBack(0)
      else if d.receipts[run].state != CommittedClean || l.tookOverStale then Recovering(0)
      else Proceed(l, d.receipts[run])))
  }

  /** The receipt of a provider-only promotion gives way to a full one. */
  function Upgrade(d: Disk, l: Local, o: Outcome): Effect {
    var run := l.request.run;
    var gone := !o.Failed? && run in d.receipts && d.receipts[run].readable;
    Effect(if gone then d.(receipts := d.receipts - {run}) else d,
           l.(phase := if gone && o.Applied? then Cleared else RollingBack(0)))
  }

  /** The checks on a run directory that is already there. */
  function InspectRun(d: Disk, l: Local, o: Outcome): Effect {
    var run := l.request.run;
    var fits := run !in d.runs
                || (!l.request.providerOnly && d.runs[run].provider == l.request.provider && d.runs[run].draft.None?);
    Effect(d, l.(phase := if o.Applied? && fits then Inspected else RollingBack(0), existing := run in d.runs))
  }

  /** writeCleanupReceipt: exclusive creation */
  function WriteReceipt(d: Disk, t: int, l: Local, o: Outcome): Effect {
    var run := l.request.run;
    var written := !o.Failed? && run !in d.receipts;
    var receipt := Receipt(t, l.request, if l.request.providerOnly then CommitIntent else Prepared,
                           l.existing, None, !o.Torn?);
    Effect(if written then d.(receipts := d.receipts[run := receipt]) else d,
           l.(phase := if written && o.Applied? then Recorded else RollingBack(0), recorded := written && o.Applied?))
  }

  // ---- Placing and committing ----

  /** Provider-only: the rename of the staged directory is itself the commit. */
  function PlaceProvider(d: Disk, t: int, l: Local, o: Outcome): Effect {
    var run := l.request.run;
    var placed := !o.Failed? && run !in d.runs;
    Effect(if placed then d.(runs := d.runs[run := RunDirectory(t, l.request.provider, None)],
                             committed := d.committed[t := l.request])
           else d,
           l.(phase := if placed then Cleaning(0) else RollingBack(0), placedRun := placed, late := !o.Applied?))
  }

  /** The draft, copied into an existing run directory; a copy whose marker failed stays
      behind, owned by nobody. */
  function PlaceDraft(d: Disk, t: int, l: Local, o: Outcome): Effect {
    var run := l.request.run;
    var placed := !o.Failed? && run in d.runs && d.runs[run].draft.None?;
    var runs := if placed then d.runs[run := d.runs[run].(draft := Some(l.request.draft))] else d.runs;
    var owned := placed && o.Applied?;
    Effect(d.(runs := runs, draftMarkers := if owned then d.draftMarkers[run := t] else d.draftMarkers),
           l.(phase := if owned then Placed else RollingBack(0), placedDraft := owned))
  }

  /** The whole staged directory, renamed into place. */
  function PlaceRun(d: Disk, t: int, l: Local, o: Outcome): Effect {
    var run := l.request.run;
    var placed := !o.Failed? && run !in d.runs;
    Effect(if placed then d.(runs := d.runs[run := RunDirectory(t, l.request.provider, Some(l.request.draft))]) else d,
           l.(phase := if placed && o.Applied? then Placed else RollingBack(0), placedRun := placed))
  }

  function Place(d: Disk, t: int, l: Local, o: Outcome): Effect {
    if l.request.providerOnly then PlaceProvider(d, t, l, o)
    else if l.existing then PlaceDraft(d, t, l, o)
    else PlaceRun(d, t, l, o)
  }

  /** The candidate manifest, written (its owner marker last) and verified */
  function Propose(d: Disk, t: int, l: Local, o: Outcome): Effect {
    Effect(d.(candidates := if o.Failed? then d.candidates else d.candidates + {t},
              candidateMarkers := if o.Applied? then d.candidateMarkers + {t} else d.candidateMarkers),
           l.(phase := if o.Applied? then Proposed else RollingBack(0)))
  }

  /** updateCleanupReceipt to commit-intent */
  function Intend(d: Disk, l: Local, o: Outcome): Effect {
    var run := l.request.run;
    var written := !o.Failed? && run in d.receipts;
    Effect(if written
           then d.(receipts := d.receipts[run := d.receipts[run].(state := CommitIntent, readable := !o.Torn?)])
           else d,
           l.(phase := if written && o.Applied? then Intended else RollingBack(0)))
  }

  /** acquireDirectoryLock on the manifest lock */
  function Fence(d: Disk, t: int, l: Local, alive: set<int>, o: Outcome): Effect {
    var taken := d.manifestLock.Some? && d.manifestLock.value in alive;
    Effect(if o.Failed? || taken then d else d.(manifestLock := Some(t)),
           l.(phase := if o.Failed? then RollingBack(0) else if taken then Intended
                       else if o.Applied? then Fenced else RollingBack(0),
              fenced := o.Applied? && !taken))
  }

  /** The commit: the candidate is renamed onto the live manifest. */
  function Commit(d: Disk, t: int, l: Local, o: Outcome): Effect {
    var renamed := !o.Failed? && t in d.candidates;
    Effect(if renamed
           then d.(manifest := Some(ManifestOf(l.request, t)), candidates := d.candidates - {t},
                   committed := d.committed[t := l.request])
           else d,
           l.(phase := if renamed then Cleaning(0) else RollingBack(0), late := !o.Applied?))
  }

  // ---- Cleaning up after a commit ----

  /** updateCleanupReceipt: a receipt that cannot be read is not rewritten. */
  function Rewritten(receipt: Receipt, t: int, state: ReceiptState, o: Outcome): (r: Receipt)
    ensures r.txn == receipt.txn && r.request == receipt.request && r.reusedRun == receipt.reusedRun
    ensures r.state == receipt.state || r.state == state
  {
    if o.Failed? || !receipt.readable then receipt
    else receipt.(state := state, cleanedBy := Some(t), readable := !o.Torn?)
  }

  const LAST_STAGE: int := 5

  /** The disk after one call of cleanupCommittedReceipt on the receipt at `run`:
      0 marks the receipt, 1 takes the manifest lock, 2 and 3 drop the owner markers of
      the candidate and of the draft, 4 releases the manifest lock, 5 closes the receipt. */
  function CleanDisk(d: Disk, t: int, run: int, stage: int, faulty: bool, alive: set<int>, o: Outcome): (d': Disk)
    requires run in d.receipts
    ensures d'.runs == d.runs && d'.manifest == d.manifest && d'.runLocks == d.runLocks && d'.committed == d.committed
  {
    var receipt := d.receipts[run];
    var full := !receipt.request.providerOnly;
    var acts := !o.Failed? && !CleanBlocked(d, t, run, stage, alive);
    var state := if stage == 0 || faulty then CleanupRequired else CommittedClean;
    d.(receipts := if stage == 0 || stage == LAST_STAGE then d.receipts[run := Rewritten(receipt, t, state, o)]
                   else d.receipts,
       manifestLock := if stage == 1 && acts && full && !faulty then Some(t)
                       else if stage == 4 && acts && full && d.manifestLock == Some(t) then None
                       else d.manifestLock,
       candidateMarkers := if stage == 2 && acts && full && !faulty then d.candidateMarkers - {receipt.txn}
                           else d.candidateMarkers,
       draftMarkers := if stage == 3 && acts && full && !faulty && receipt.reusedRun then d.draftMarkers - {run}
                       else d.draftMarkers)
  }

  /** Why a clean-up call may have to leave a residual even if nothing fails. */
  predicate CleanBlocked(d: Disk, t: int, run: int, stage: int, alive: set<int>)
    requires run in d.receipts
  {
    var receipt := d.receipts[run];
    if stage == 0 || stage == LAST_STAGE then !receipt.readable
    else if stage == 1 then
      !receipt.request.providerOnly && d.manifestLock.Some? && d.manifestLock.value != t && d.manifestLock.value in alive
    else if stage == 2 then
      // releaseOwnedMarkerForCommittedFile: the committed file is no longer the one recorded
      && !receipt.request.providerOnly && receipt.txn in d.candidateMarkers
      && (d.manifest.None? || d.manifest.value.writer != receipt.txn)
    else if stage == 3 then
      && !receipt.request.providerOnly && receipt.reusedRun && run in d.draftMarkers
      && d.draftMarkers[run] != receipt.txn
    else false
  }

  predicate CleanFaulty(d: Disk, t: int, run: int, stage: int, faulty: bool, alive: set<int>, o: Outcome)
    requires run in d.receipts
  {
    faulty || !o.Applied? || CleanBlocked(d, t, run, stage, alive)
  }

  /** releaseDirectoryLock on the run lock; the promotion is over either way. */
  function End(d: Disk, t: int, l: Local, o: Outcome): Effect {
    var run := l.request.run;
    Effect(if !o.Failed? && run in d.runLocks && d.runLocks[run] == t then d.(runLocks := d.runLocks - {run}) else d,
           l.(phase := Ended))
  }

  /** One call of cleanupCommittedReceipt on the receipt at the run, then on to `next`. */
  function CleanCall(d: Disk, t: int, l: Local, stage: int, next: Phase, alive: set<int>, o: Outcome): Effect
    requires l.request.run in d.receipts
  {
    Effect(CleanDisk(d, t, l.request.run, stage, l.faulty, alive, o),
           l.(phase := next, faulty := CleanFaulty(d, t, l.request.run, stage, l.faulty, alive, o)))
  }

  /** A residual from the commit call itself keeps the receipt open. */
  function Reopen(d: Disk, t: int, l: Local, next: Phase, o: Outcome): Effect
    requires l.request.run in d.receipts
  {
    Effect(d.(receipts := d.receipts[l.request.run := Rewritten(d.receipts[l.request.run], t, CleanupRequired, o)]),
           l.(phase := next))
  }

  /** cleanupCommittedReceipt on this promotion's own receipt, call by call */
  function CleanOwn(d: Disk, t: int, l: Local, stage: int, alive: set<int>, o: Outcome): Effect {
    if l.request.run !in d.receipts then End(d, t, l, o)
    else if stage <= LAST_STAGE then CleanCall(d, t, l, stage, Cleaning(stage + 1), alive, o)
    else if stage == LAST_STAGE + 1 && l.late then Reopen(d, t, l, Cleaning(stage + 1), o)
    else End(d, t, l, o)
  }

  /** The same on the receipt of an earlier promotion */
  function Recover(d: Disk, t: int, l: Local, stage: int, alive: set<int>, o: Outcome): Effect {
    if l.request.run !in d.receipts then End(d, t, l, o)
    else if stage <= LAST_STAGE then CleanCall(d, t, l, stage, Recovering(stage + 1), alive, o)
    else if l.faulty || d.receipts[l.request.run].request == l.request then End(d, t, l, o)
    else Effect(d, l.(phase := Proceed(l, d.receipts[l.request.run])))
  }

  // ---- Rolling back before a commit ----

  /** The candidate and its marker, if either is there. */
  function DropCandidate(d: Disk, t: int, l: Local, o: Outcome): Effect {
    var needed := t in d.candidates || t in d.candidateMarkers;
    var can := !o.Failed? && t in d.candidateMarkers;
    Effect(if can then d.(candidates := d.candidates - {t}, candidateMarkers := d.candidateMarkers - {t}) else d,
           l.(phase := RollingBack(1), faulty := l.faulty || (needed && !(can && o.Applied?))))
  }

  function DropFence(d: Disk, t: int, l: Local, o: Outcome): Effect {
    var can := l.fenced && !o.Failed? && d.manifestLock == Some(t);
    Effect(if can then d.(manifestLock := None) else d,
           l.(phase := RollingBack(2), fenced := false, faulty := l.faulty || (l.fenced && !(can && o.Applied?))))
  }

  function DropDraft(d: Disk, t: int, l: Local, o: Outcome): Effect {
    var run := l.request.run;
    var can := l.placedDraft && !o.Failed? && run in d.runs && run in d.draftMarkers && d.draftMarkers[run] == t;
    Effect(if can
           then d.(runs := d.runs[run := d.runs[run].(draft := None)], draftMarkers := d.draftMarkers - {run})
           else d,
           l.(phase := RollingBack(3), placedDraft := false,
              faulty := l.faulty || (l.placedDraft && !(can && o.Applied?))))
  }

  function DropRun(d: Disk, t: int, l: Local, o: Outcome): Effect {
    var run := l.request.run;
    var needed := l.placedRun && !l.request.providerOnly;
    var can := needed && !o.Failed? && run in d.runs && d.runs[run].owner == t;
    Effect(if can then d.(runs := d.runs - {run}) else d,
           l.(phase := RollingBack(4), placedRun := false, faulty := l.faulty || (needed && !(can && o.Applied?))))
  }

  /** The receipt goes last, and only if everything before it went. */
  function DropReceipt(d: Disk, t: int, l: Local, o: Outcome): Effect {
    var run := l.request.run;
    var needed := l.recorded && !l.faulty;
    var can := needed && !o.Failed? && run in d.receipts && d.receipts[run].txn == t && d.receipts[run].readable;
    Effect(if can then d.(receipts := d.receipts - {run}) else d,
           l.(phase := RollingBack(5), recorded := l.recorded && !needed,
              faulty := l.faulty || (needed && !(can && o.Applied?))))
  }

  function RollBack(d: Disk, t: int, l: Local, stage: int, o: Outcome): Effect {
    if stage == 0 then DropCandidate(d, t, l, o)
    else if stage == 1 then DropFence(d, t, l, o)
    else if stage == 2 then DropDraft(d, t, l, o)
    else if stage == 3 then DropRun(d, t, l, o)
    else if stage == 4 then DropReceipt(d, t, l, o)
    else End(d, t, l, o)
  }

  // ---- Runs ----

  function Advance(d: Disk, t: int, l: Local, alive: set<int>, o: Outcome): Effect {
    match l.phase
    case Staged => TakeRunLock(d, t, l, alive, o)
    case Locked => ReadReceipt(d, l, o)
    case Recovering(stage) => Recover(d, t, l, stage, alive, o)
    case Upgrading => Upgrade(d, l, o)
    case Cleared => InspectRun(d, l, o)
    case Inspected => WriteReceipt(d, t, l, o)
    case Recorded => Place(d, t, l, o)
    case Placed => Propose(d, t, l, o)
    case Proposed => Intend(d, l, o)
    case Intended => Fence(d, t, l, alive, o)
    case Fenced => Commit(d, t, l, o)
    case Cleaning(stage) => CleanOwn(d, t, l, stage, alive, o)
    case RollingBack(stage) => RollBack(d, t, l, stage, o)
    case Ended => Effect(d, l)
  }

  predicate Running(s: State, t: int) {
    t in s.txns && t !in s.dead && !s.txns[t].phase.Ended?
  }

  function Alive(s: State): set<int> {
    set t | t in s.txns && Running(s, t)
  }

  function Apply(s: State, step: Step): State {
    match step
    case Begin(t, request) =>
      if t in s.txns then s
      else s.(txns := s.txns[t := Local(request, Staged, false, false, false, false, false, false, false, false)])
    case Call(t, o) =>
      if !Running(s, t) then s
      else
        var e := Advance(s.disk, t, s.txns[t], Alive(s), o);
        State(e.disk, s.txns[t := e.local], s.dead)
    case Crash(t) =>
      s.(dead := s.dead + {t})
  }

  function Exec(s: State, steps: seq<Step>): State
    decreases |steps|
  {
    if steps == [] then s else Exec(Apply(s, steps[0]), steps[1..])
  }

  // ---- What holds in every reachable state ----

  /** The manifest's references name files that exist with the recorded digests. */
  predicate NotDangling(d: Disk) {
    d.manifest.Some? ==>
      var m := d.manifest.value;
      && m.run in d.runs
      && d.runs[m.run].provider == m.provider
      && d.runs[m.run].draft == Some(m.draft)
  }

  /** A committed promotion's evidence is where it was put, with what it was made of. */
  predicate Kept(d: Disk, request: Request) {
    && request.run in d.runs
    && d.runs[request.run].provider == request.provider
    && (!request.providerOnly ==> d.runs[request.run].draft == Some(request.draft))
  }

  /** The live manifest was written by a committed full promotion, for what it published. */
  predicate ManifestInv(d: Disk) {
    d.manifest.Some? ==>
      var m := d.manifest.value;
      && m.writer in d.committed && !d.committed[m.writer].providerOnly
      && m == ManifestOf(d.committed[m.writer], m.writer)
  }

  ghost predicate NoneCommitted(d: Disk, run: int) {
    forall c :: c in d.committed ==> d.committed[c].run != run
  }

  ghost predicate NoFullCommitted(d: Disk, run: int) {
    forall c :: c in d.committed ==> d.committed[c].run != run || d.committed[c].providerOnly
  }

  predicate SameFullRun(q: Request, r: Request) {
    !q.providerOnly && !r.providerOnly && q.run == r.run
  }

  /** Every committed promotion is kept, and no run id is published in full twice. */
  ghost predicate History(d: Disk) {
    && (forall c :: c in d.committed ==> Kept(d, d.committed[c]))
    && (forall b, c :: b in d.committed && c in d.committed && SameFullRun(d.committed[b], d.committed[c]) ==> b == c)
  }

  ghost predicate ReceiptInv(d: Disk, run: int)
    requires run in d.receipts
  {
    var receipt := d.receipts[run];
    && receipt.request.run == run
    && (receipt.txn !in d.committed ==>
          if receipt.request.providerOnly then run !in d.runs else NoFullCommitted(d, run))
    && (receipt.txn in d.committed ==>
          !receipt.state.Prepared? && d.committed[receipt.txn] == receipt.request)
  }

  predicate Fresh(l: Local) {
    !l.recorded && !l.placedRun && !l.placedDraft
  }

  /** The receipt at this promotion's run is its own. */
  predicate OwnReceipt(d: Disk, t: int, l: Local) {
    l.request.run in d.receipts && d.receipts[l.request.run].txn == t && d.receipts[l.request.run].request == l.request
  }

  /** What the inspection of the run directory found is still so. */
  predicate AsInspected(d: Disk, l: Local) {
    var run := l.request.run;
    if l.existing
    then run in d.runs && d.runs[run].provider == l.request.provider && d.runs[run].draft.None?
         && !l.request.providerOnly
    else run !in d.runs
  }

  /** Everything the manifest is about to name is in place. */
  predicate InPlace(d: Disk, l: Local) {
    var run := l.request.run;
    && !l.request.providerOnly
    && (l.placedRun || l.placedDraft)
    && run in d.runs && d.runs[run].provider == l.request.provider && d.runs[run].draft == Some(l.request.draft)
  }

  /** What an uncommitted promotion has placed, no committed one relies on. */
  ghost predicate Revocable(d: Disk, l: Local) {
    && (l.placedRun ==> NoneCommitted(d, l.request.run))
    && (l.placedDraft ==> NoFullCommitted(d, l.request.run))
  }

  predicate PhaseInv(d: Disk, t: int, l: Local) {
    var run := l.request.run;
    match l.phase
    case Staged => Fresh(l)
    case Locked => Fresh(l)
    case Cleared => Fresh(l)
    case Recovering(_) => Fresh(l) && run in d.receipts && d.receipts[run].txn in d.committed
    case Upgrading =>
      Fresh(l) && run in d.receipts && d.receipts[run].txn in d.committed && d.receipts[run].request.providerOnly
    case Inspected => Fresh(l) && AsInspected(d, l)
    case Recorded =>
      && l.recorded && !l.placedRun && !l.placedDraft
      && OwnReceipt(d, t, l) && AsInspected(d, l)
      && (l.request.providerOnly ==> !d.receipts[run].state.Prepared?)
    case Placed => l.recorded && OwnReceipt(d, t, l) && InPlace(d, l)
    case Proposed => l.recorded && OwnReceipt(d, t, l) && InPlace(d, l)
    case Intended =>
      l.recorded && OwnReceipt(d, t, l) && InPlace(d, l) && !d.receipts[run].state.Prepared?
    case Fenced =>
      l.recorded && OwnReceipt(d, t, l) && InPlace(d, l) && !d.receipts[run].state.Prepared?
    case Cleaning(_) => OwnReceipt(d, t, l)
    case RollingBack(stage) =>
      && (l.recorded ==> OwnReceipt(d, t, l))
      && (l.placedDraft ==> stage <= 2 && l.recorded && !l.request.providerOnly)
      && (l.placedRun ==> stage <= 3 && l.recorded && !l.request.providerOnly)
    case Ended => true
  }

  ghost predicate LocalInv(d: Disk, t: int, l: Local) {
    && (!l.phase.Staged? ==> l.request.run in d.runLocks && d.runLocks[l.request.run] == t)
    && (t in d.committed <==> l.phase.Cleaning?)
    && (!l.phase.Cleaning? ==> Revocable(d, l))
    && PhaseInv(d, t, l)
  }

  /** What one promotion answers for. */
  ghost predicate Own(d: Disk, t: int, l: Local) {
    && ManifestInv(d)
    && History(d)
    && (l.request.run in d.receipts ==> ReceiptInv(d, l.request.run))
    && (!l.phase.Ended? ==> LocalInv(d, t, l))
  }

  ghost predicate Inv(s: State) {
    && ManifestInv(s.disk)
    && History(s.disk)
    && (forall c :: c in s.disk.committed ==> c in s.txns && s.txns[c].request == s.disk.committed[c])
    && (forall run :: run in s.disk.receipts ==>
          && ReceiptInv(s.disk, run)
          && s.disk.receipts[run].txn in s.txns
          && s.txns[s.disk.receipts[run].txn].request == s.disk.receipts[run].request)
    && (forall t :: Running(s, t) ==> LocalInv(s.disk, t, s.txns[t]))
  }

  // ---- Preservation ----

  predicate SameAt<V(==)>(m: map<int, V>, m': map<int, V>, r: int) {
    (r in m <==> r in m') && (r in m ==> m[r] == m'[r])
  }

  predicate SameDirectories(d: Disk, d': Disk, r: int) {
    SameAt(d.runs, d'.runs, r) && SameAt(d.receipts, d'.receipts, r) && SameAt(d.runLocks, d'.runLocks, r)
  }

  /** What a call of `t` may touch: what belongs to its own run, under the run lock. */
  ghost predicate Frame(d: Disk, t: int, l: Local, alive: set<int>, e: Effect) {
    var run := l.request.run;
    && e.local.request == l.request
    && (e.disk.committed == d.committed || e.disk.committed == d.committed[t := l.request])
    && (forall r :: r != run ==> SameDirectories(d, e.disk, r))
    && (l.phase.Staged? ==>
          && SameAt(d.runs, e.disk.runs, run) && SameAt(d.receipts, e.disk.receipts, run)
          && (SameAt(d.runLocks, e.disk.runLocks, run) || run !in d.runLocks || d.runLocks[run] !in alive))
    && (e.disk.manifest == d.manifest
        || (e.disk.manifest.Some? && e.disk.manifest.value.writer == t))
    && (e.disk.committed != d.committed ==> !l.phase.Staged?)
    && (run in e.disk.receipts ==>
          || (e.disk.receipts[run].request == l.request && e.disk.receipts[run].txn == t)
          || (run in d.receipts && e.disk.receipts[run].txn == d.receipts[run].txn
              && e.disk.receipts[run].request == d.receipts[run].request))
  }

  lemma FrameSparesOthers(s: State, t: int, e: Effect, u: int)
    requires Inv(s) && Running(s, t) && Running(s, u) && u != t
    requires Frame(s.disk, t, s.txns[t], Alive(s), e)
    ensures LocalInv(e.disk, u, s.txns[u])
  {
    var run := s.txns[t].request.run;
    assert LocalInv(s.disk, t, s.txns[t]) && LocalInv(s.disk, u, s.txns[u]);
    assert u in Alive(s);
    assert s.txns[u].request.run != run ==> SameDirectories(s.disk, e.disk, s.txns[u].request.run);
  }

  lemma FrameSparesReceipts(s: State, t: int, e: Effect, r: int)
    requires Inv(s) && Running(s, t) && r != s.txns[t].request.run && r in e.disk.receipts
    requires Frame(s.disk, t, s.txns[t], Alive(s), e)
    ensures ReceiptInv(e.disk, r) && SameAt(s.disk.receipts, e.disk.receipts, r)
  {
    assert SameDirectories(s.disk, e.disk, r);
    assert ReceiptInv(s.disk, r);
  }

  /** A call that stays in its frame and keeps its own part keeps everything. */
  lemma FrameAndOwnKeepInv(s: State, t: int, e: Effect)
    requires Inv(s) && Running(s, t)
    requires Frame(s.disk, t, s.txns[t], Alive(s), e) && Own(e.disk, t, e.local)
    ensures Inv(State(e.disk, s.txns[t := e.local], s.dead))
  {
    hide LocalInv, History, ManifestInv, ReceiptInv, SameDirectories;
    var s' := State(e.disk, s.txns[t := e.local], s.dead);
    forall u | Running(s', u)
      ensures LocalInv(s'.disk, u, s'.txns[u])
    {
      if u != t {
        assert Running(s, u);
        FrameSparesOthers(s, t, e, u);
      }
    }
    forall r | r in s'.disk.receipts && r != s.txns[t].request.run
      ensures ReceiptInv(s'.disk, r) && SameAt(s.disk.receipts, s'.disk.receipts, r)
    {
      FrameSparesReceipts(s, t, e, r);
    }
  }

  lemma TakeRunLockStaysInFrame(d: Disk, t: int, l: Local, alive: set<int>, o: Outcome)
    requires Own(d, t, l) && l.phase.Staged?
    ensures var e := TakeRunLock(d, t, l, alive, o); Frame(d, t, l, alive, e) && Own(e.disk, t, e.local)
  {
  }

  lemma ReadReceiptStaysInFrame(d: Disk, t: int, l: Local, alive: set<int>, o: Outcome)
    requires Own(d, t, l) && l.phase.Locked?
    ensures var e := ReadReceipt(d, l, o); Frame(d, t, l, alive, e) && Own(e.disk, t, e.local)
  {
  }

  lemma UpgradeStaysInFrame(d: Disk, t: int, l: Local, alive: set<int>, o: Outcome)
    requires Own(d, t, l) && l.phase.Upgrading?
    ensures var e := Upgrade(d, l, o); Frame(d, t, l, alive, e) && Own(e.disk, t, e.local)
  {
  }

  lemma InspectRunStaysInFrame(d: Disk, t: int, l: Local, alive: set<int>, o: Outcome)
    requires Own(d, t, l) && l.phase.Cleared?
    ensures var e := InspectRun(d, l, o); Frame(d, t, l, alive, e) && Own(e.disk, t, e.local)
  {
  }

  lemma WriteReceiptStaysInFrame(d: Disk, t: int, l: Local, alive: set<int>, o: Outcome)
    requires Own(d, t, l) && l.phase.Inspected?
    ensures var e := WriteReceipt(d, t, l, o); Frame(d, t, l, alive, e) && Own(e.disk, t, e.local)
  {
  }

  lemma PlaceProviderStaysInFrame(d: Disk, t: int, l: Local, alive: set<int>, o: Outcome)
    requires Own(d, t, l) && l.phase.Recorded? && l.request.providerOnly
    ensures var e := PlaceProvider(d, t, l, o); Frame(d, t, l, alive, e) && Own(e.disk, t, e.local)
  {
  }

  lemma PlaceDraftStaysInFrame(d: Disk, t: int, l: Local, alive: set<int>, o: Outcome)
    requires Own(d, t, l) && l.phase.Recorded? && !l.request.providerOnly && l.existing
    ensures var e := PlaceDraft(d, t, l, o); Frame(d, t, l, alive, e) && Own(e.disk, t, e.local)
  {
  }

  lemma PlaceRunStaysInFrame(d: Disk, t: int, l: Local, alive: set<int>, o: Outcome)
    requires Own(d, t, l) && l.phase.Recorded? && !l.request.providerOnly && !l.existing
    ensures var e := PlaceRun(d, t, l, o); Frame(d, t, l, alive, e) && Own(e.disk, t, e.local)
  {
  }

  lemma ProposeStaysInFrame(d: Disk, t: int, l: Local, alive: set<int>, o: Outcome)
    requires Own(d, t, l) && l.phase.Placed?
    ensures var e := Propose(d, t, l, o); Frame(d, t, l, alive, e) && Own(e.disk, t, e.local)
  {
  }

  lemma IntendStaysInFrame(d: Disk, t: int, l: Local, alive: set<int>, o: Outcome)
    requires Own(d, t, l) && l.phase.Proposed?
    ensures var e := Intend(d, l, o); Frame(d, t, l, alive, e) && Own(e.disk, t, e.local)
  {
  }

  lemma FenceTouchesTheLock(d: Disk, t: int, l: Local, alive: set<int>, o: Outcome)
    ensures var e := Fence(d, t, l, alive, o);
            e.disk == d.(manifestLock := e.disk.manifestLock) && e.local == l.(phase := e.local.phase, fenced := e.local.fenced)
            && (e.local.phase == RollingBack(0) || e.local.phase.Intended? || e.local.phase.Fenced?)
  {
  }

  lemma FenceStaysInFrame(d: Disk, t: int, l: Local, alive: set<int>, o: Outcome)
    requires Own(d, t, l) && l.phase.Intended?
    ensures var e := Fence(d, t, l, alive, o); Frame(d, t, l, alive, e) && Own(e.disk, t, e.local)
  {
    hide Fence;
    FenceTouchesTheLock(d, t, l, alive, o);
  }

  lemma CommitStaysInFrame(d: Disk, t: int, l: Local, alive: set<int>, o: Outcome)
    requires Own(d, t, l) && l.phase.Fenced?
    ensures var e := Commit(d, t, l, o); Frame(d, t, l, alive, e) && Own(e.disk, t, e.local)
  {
  }

  /** A clean-up call changes nothing the invariant speaks of but the receipt's state. */
  lemma CleanDiskKeepsReceipt(d: Disk, t: int, run: int, stage: int, faulty: bool, alive: set<int>, o: Outcome)
    requires run in d.receipts
    ensures var d' := CleanDisk(d, t, run, stage, faulty, alive, o);
            && (forall r :: r != run ==> SameAt(d.receipts, d'.receipts, r))
            && run in d'.receipts && d'.receipts[run].txn == d.receipts[run].txn
            && d'.receipts[run].request == d.receipts[run].request
            && (d'.receipts[run].state.Prepared? ==> d.receipts[run].state.Prepared?)
  {
  }

  lemma CleanCallStaysInFrame(d: Disk, t: int, l: Local, stage: int, next: Phase, alive: set<int>, o: Outcome)
    requires Own(d, t, l) && l.request.run in d.receipts
    requires (l.phase.Cleaning? && next.Cleaning?) || (l.phase.Recovering? && next.Recovering?)
    ensures var e := CleanCall(d, t, l, stage, next, alive, o); Frame(d, t, l, alive, e) && Own(e.disk, t, e.local)
  {
    hide CleanDisk, CleanFaulty;
    CleanDiskKeepsReceipt(d, t, l.request.run, stage, l.faulty, alive, o);
  }

  lemma ReopenStaysInFrame(d: Disk, t: int, l: Local, next: Phase, alive: set<int>, o: Outcome)
    requires Own(d, t, l) && l.request.run in d.receipts && l.phase.Cleaning? && next.Cleaning?
    ensures var e := Reopen(d, t, l, next, o); Frame(d, t, l, alive, e) && Own(e.disk, t, e.local)
  {
    hide Rewritten;
  }

  lemma EndStaysInFrame(d: Disk, t: int, l: Local, alive: set<int>, o: Outcome)
    requires Own(d, t, l) && (l.phase.Cleaning? || l.phase.Recovering? || l.phase.RollingBack?)
    ensures var e := End(d, t, l, o); Frame(d, t, l, alive, e) && Own(e.disk, t, e.local)
  {
  }

  lemma RecoveredStaysInFrame(d: Disk, t: int, l: Local, alive: set<int>)
    requires Own(d, t, l) && l.request.run in d.receipts && l.phase.Recovering?
    ensures var e := Effect(d, l.(phase := Proceed(l, d.receipts[l.request.run])));
            Frame(d, t, l, alive, e) && Own(e.disk, t, e.local)
  {
  }

  lemma DropCandidateStaysInFrame(d: Disk, t: int, l: Local, alive: set<int>, o: Outcome)
    requires Own(d, t, l) && l.phase == RollingBack(0)
    ensures var e := DropCandidate(d, t, l, o); Frame(d, t, l, alive, e) && Own(e.disk, t, e.local)
  {
  }

  lemma DropFenceStaysInFrame(d: Disk, t: int, l: Local, alive: set<int>, o: Outcome)
    requires Own(d, t, l) && l.phase == RollingBack(1)
    ensures var e := DropFence(d, t, l, o); Frame(d, t, l, alive, e) && Own(e.disk, t, e.local)
  {
  }

  lemma DropDraftStaysInFrame(d: Disk, t: int, l: Local, alive: set<int>, o: Outcome)
    requires Own(d, t, l) && l.phase == RollingBack(2)
    ensures var e := DropDraft(d, t, l, o); Frame(d, t, l, alive, e) && Own(e.disk, t, e.local)
  {
  }

  lemma DropRunStaysInFrame(d: Disk, t: int, l: Local, alive: set<int>, o: Outcome)
    requires Own(d, t, l) && l.phase == RollingBack(3)
    ensures var e := DropRun(d, t, l, o); Frame(d, t, l, alive, e) && Own(e.disk, t, e.local)
  {
  }

  lemma DropReceiptStaysInFrame(d: Disk, t: int, l: Local, alive: set<int>, o: Outcome)
    requires Own(d, t, l) && l.phase == RollingBack(4)
    ensures var e := DropReceipt(d, t, l, o); Frame(d, t, l, alive, e) && Own(e.disk, t, e.local)
  {
  }

  lemma AdvanceStaysInFrame(d: Disk, t: int, l: Local, alive: set<int>, o: Outcome)
    requires Own(d, t, l) && !l.phase.Ended?
    ensures var e := Advance(d, t, l, alive, o); Frame(d, t, l, alive, e) && Own(e.disk, t, e.local)
  {
    hide Own, Frame, CleanCall, Reopen, End, TakeRunLock, ReadReceipt, Upgrade, InspectRun, WriteReceipt,
         PlaceProvider, PlaceDraft, PlaceRun, Propose, Intend, Fence, Commit, Proceed,
         DropCandidate, DropFence, DropDraft, DropRun, DropReceipt;
    match l.phase
    case Staged => TakeRunLockStaysInFrame(d, t, l, alive, o);
    case Locked => ReadReceiptStaysInFrame(d, t, l, alive, o);
    case Upgrading => UpgradeStaysInFrame(d, t, l, alive, o);
    case Cleared => InspectRunStaysInFrame(d, t, l, alive, o);
    case Inspected => WriteReceiptStaysInFrame(d, t, l, alive, o);
    case Recorded =>
      if l.request.providerOnly { PlaceProviderStaysInFrame(d, t, l, alive, o); }
      else if l.existing { PlaceDraftStaysInFrame(d, t, l, alive, o); }
      else { PlaceRunStaysInFrame(d, t, l, alive, o); }
    case Placed => ProposeStaysInFrame(d, t, l, alive, o);
    case Proposed => IntendStaysInFrame(d, t, l, alive, o);
    case Intended => FenceStaysInFrame(d, t, l, alive, o);
    case Fenced => CommitStaysInFrame(d, t, l, alive, o);
    case Cleaning(stage) =>
      if l.request.run !in d.receipts { EndStaysInFrame(d, t, l, alive, o); }
      else if stage <= LAST_STAGE { CleanCallStaysInFrame(d, t, l, stage, Cleaning(stage + 1), alive, o); }
      else if stage == LAST_STAGE + 1 && l.late { ReopenStaysInFrame(d, t, l, Cleaning(stage + 1), alive, o); }
      else { EndStaysInFrame(d, t, l, alive, o); }
    case Recovering(stage) =>
      if l.request.run !in d.receipts { EndStaysInFrame(d, t, l, alive, o); }
      else if stage <= LAST_STAGE { CleanCallStaysInFrame(d, t, l, stage, Recovering(stage + 1), alive, o); }
      else if l.faulty || d.receipts[l.request.run].request == l.request { EndStaysInFrame(d, t, l, alive, o); }
      else { RecoveredStaysInFrame(d, t, l, alive); }
    case RollingBack(stage) =>
      if stage == 0 { DropCandidateStaysInFrame(d, t, l, alive, o); }
      else if stage == 1 { DropFenceStaysInFrame(d, t, l, alive, o); }
      else if stage == 2 { DropDraftStaysInFrame(d, t, l, alive, o); }
      else if stage == 3 { DropRunStaysInFrame(d, t, l, alive, o); }
      else if stage == 4 { DropReceiptStaysInFrame(d, t, l, alive, o); }
      else { EndStaysInFrame(d, t, l, alive, o); }
  }

  lemma ApplyKeepsInv(s: State, step: Step)
    requires Inv(s)
    ensures Inv(Apply(s, step))
  {
    var s' := Apply(s, step);
    match step
    case Begin(t, request) =>
      forall u | Running(s', u) ensures LocalInv(s'.disk, u, s'.txns[u]) {
        assert u in s.txns ==> Running(s, u);
      }
    case Call(t, o) =>
      if Running(s, t) {
        var l := s.txns[t];
        assert Own(s.disk, t, l);
        AdvanceStaysInFrame(s.disk, t, l, Alive(s), o);
        FrameAndOwnKeepInv(s, t, Advance(s.disk, t, l, Alive(s), o));
      }
    case Crash(t) =>
      forall u | Running(s', u) ensures LocalInv(s'.disk, u, s'.txns[u]) {
        assert Running(s, u);
      }
  }

  lemma {:induction false} ExecKeepsInv(s: State, steps: seq<Step>)
    requires Inv(s)
    ensures Inv(Exec(s, steps))
    decreases |steps|
  {
    if steps != [] {
      ApplyKeepsInv(s, steps[0]);
      ExecKeepsInv(Apply(s, steps[0]), steps[1..]);
    }
  }

  lemma ReachableInv(steps: seq<Step>)
    ensures Inv(Exec(Init(), steps))
  {
    ExecKeepsInv(Init(), steps);
  }

  // ---- Main results ----

  /** In every interleaving, with failures and crashes anywhere, the live manifest's
      references name files that exist with the recorded digests. */
  lemma ManifestNeverDangles(steps: seq<Step>)
    ensures var d := Exec(Init(), steps).disk;
            d.manifest.Some? ==>
              var m := d.manifest.value;
              && m.run in d.runs
              && d.runs[m.run].provider == m.provider
              && d.runs[m.run].draft == Some(m.draft)
  {
    ReachableInv(steps);
    var d := Exec(Init(), steps).disk;
    if d.manifest.Some? {
      assert Kept(d, d.committed[d.manifest.value.writer]);
    }
  }

  /** A commit is for good: whatever has been committed, in any run, stays published as it
      was, and a run id is published in full at most once. */
  lemma CommittedEvidenceIsKept(steps: seq<Step>, later: seq<Step>, t: int)
    requires t in Exec(Init(), steps).disk.committed
    ensures var d, d' := Exec(Init(), steps).disk, Exec(Exec(Init(), steps), later).disk;
            && t in d'.committed && d'.committed[t] == d.committed[t]
            && Kept(d', d.committed[t])
  {
    ReachableInv(steps);
    ExecKeepsInv(Exec(Init(), steps), later);
    CommittedGrows(Exec(Init(), steps), later, t);
  }

  lemma {:induction false} CommittedGrows(s: State, steps: seq<Step>, t: int)
    requires Inv(s) && t in s.disk.committed
    ensures var d' := Exec(s, steps).disk;
            t in d'.committed && d'.committed[t] == s.disk.committed[t]
    decreases |steps|
  {
    if steps != [] {
      ApplyKeepsInv(s, steps[0]);
      var s' := Apply(s, steps[0]);
      if steps[0].Call? && Running(s, steps[0].txn) {
        var u := steps[0].txn;
        assert Own(s.disk, u, s.txns[u]);
        AdvanceStaysInFrame(s.disk, u, s.txns[u], Alive(s), steps[0].outcome);
      }
      CommittedGrows(s', steps[1..], t);
    }
  }

  /** Commit detection is exact: for a readable receipt in any reachable state, the commit
      is reported present exactly when that promotion's commit rename has run and (for a
      full promotion) no other promotion has replaced the live manifest since. */
  lemma CommitDetectionIsExact(steps: seq<Step>, run: int)
    requires run in Exec(Init(), steps).disk.receipts
    ensures var d := Exec(Init(), steps).disk;
            var receipt := d.receipts[run];
            CommitPresent(d, receipt) <==>
              && receipt.txn in d.committed
              && (receipt.request.providerOnly || (d.manifest.Some? && d.manifest.value.writer == receipt.txn))
  {
    ReachableInv(steps);
    var d := Exec(Init(), steps).disk;
    assert ReceiptInv(d, run);
    var receipt := d.receipts[run];
    if receipt.txn in d.committed {
      assert Kept(d, receipt.request);
    }
  }

  /** Once its commit rename has run, a promotion only cleans up: no call of it is ever a
      rollback action, whatever fails. */
  lemma CommitIsIrrevocable(steps: seq<Step>, t: int)
    requires t in Exec(Init(), steps).disk.committed
    ensures var s := Exec(Init(), steps);
            Running(s, t) ==> s.txns[t].phase.Cleaning?
  {
    ReachableInv(steps);
  }

  // ---- A rerun on an uncommitted receipt ----

  /** A promotion that has placed nothing and is on its way out. */
  predicate Barred(l: Local) {
    l.phase.Ended? || (l.phase.RollingBack? && Fresh(l))
  }

  predicate SamePublication(d: Disk, d': Disk) {
    d'.runs == d.runs && d'.manifest == d.manifest && d'.receipts == d.receipts && d'.committed == d.committed
  }

  lemma BarredRollBack(d: Disk, t: int, l: Local, o: Outcome)
    requires Fresh(l)
    ensures var e := DropDraft(d, t, l, o); Fresh(e.local) && SamePublication(d, e.disk)
    ensures var e := DropRun(d, t, l, o); Fresh(e.local) && SamePublication(d, e.disk)
    ensures var e := DropReceipt(d, t, l, o); Fresh(e.local) && SamePublication(d, e.disk)
    ensures DropDraft(d, t, l, o).local.phase == RollingBack(3)
    ensures DropRun(d, t, l, o).local.phase == RollingBack(4)
    ensures DropReceipt(d, t, l, o).local.phase == RollingBack(5)
  {
  }

  lemma BarredRelease(d: Disk, t: int, l: Local, o: Outcome)
    requires Fresh(l)
    ensures var e := DropCandidate(d, t, l, o);
            Fresh(e.local) && SamePublication(d, e.disk) && e.local.phase == RollingBack(1)
    ensures var e := DropFence(d, t, l, o);
            Fresh(e.local) && SamePublication(d, e.disk) && e.local.phase == RollingBack(2)
    ensures var e := End(d, t, l, o); SamePublication(d, e.disk) && e.local.phase == Ended
  {
  }

  lemma BarredPublishesNothing(d: Disk, t: int, l: Local, alive: set<int>, o: Outcome)
    requires Barred(l)
    ensures var e := Advance(d, t, l, alive, o); Barred(e.local) && SamePublication(d, e.disk)
  {
    hide CleanOwn, Recover, TakeRunLock, ReadReceipt, Upgrade, InspectRun, WriteReceipt, Place, Propose, Intend,
         Fence, Commit, DropCandidate, DropFence, DropDraft, DropRun, DropReceipt, End;
    if l.phase.RollingBack? {
      BarredRollBack(d, t, l, o);
      BarredRelease(d, t, l, o);
    }
  }

  lemma {:induction false} BarredForGood(s: State, steps: seq<Step>, t: int)
    requires t in s.txns && Barred(s.txns[t])
    ensures t in Exec(s, steps).txns && Barred(Exec(s, steps).txns[t])
    decreases |steps|
  {
    if steps != [] {
      var step := steps[0];
      if step.Call? && step.txn == t && Running(s, t) {
        BarredPublishesNothing(s.disk, t, s.txns[t], Alive(s), step.outcome);
      }
      BarredForGood(Apply(s, step), steps[1..], t);
    }
  }

  /** A rerun that finds the receipt of a promotion whose commit never ran publishes
      nothing: neither the call that reads the receipt nor any later call of it changes a
      run directory, the manifest or a receipt. */
  lemma RerunOnUncommittedPublishesNothing(steps: seq<Step>, t: int, o: Outcome, later: seq<Step>, o': Outcome)
    requires var s := Exec(Init(), steps);
             && Running(s, t) && s.txns[t].phase.Locked?
             && s.txns[t].request.run in s.disk.receipts
             && s.disk.receipts[s.txns[t].request.run].txn !in s.disk.committed
    ensures var s := Exec(Init(), steps);
            var s' := Apply(s, Call(t, o));
            var s'' := Exec(s', later);
            && s'.disk == s.disk
            && SamePublication(s''.disk, Apply(s'', Call(t, o')).disk)
            && t !in s''.disk.committed
  {
    var s := Exec(Init(), steps);
    var run := s.txns[t].request.run;
    ReachableInv(steps);
    CommitDetectionIsExact(steps, run);
    assert LocalInv(s.disk, t, s.txns[t]);
    var s' := Apply(s, Call(t, o));
    assert Barred(s'.txns[t]);
    BarredForGood(s', later, t);
    var s'' := Exec(s', later);
    if Running(s'', t) {
      BarredPublishesNothing(s''.disk, t, s''.txns[t], Alive(s''), o');
    }
    ApplyKeepsInv(s, Call(t, o));
    BarredNeverCommits(s', later, t);
  }

  lemma {:induction false} BarredNeverCommits(s: State, steps: seq<Step>, t: int)
    requires Inv(s) && t in s.txns && Barred(s.txns[t]) && t !in s.disk.committed
    ensures t !in Exec(s, steps).disk.committed
    decreases |steps|
  {
    if steps != [] {
      var step := steps[0];
      if step.Call? && Running(s, step.txn) {
        if step.txn == t {
          BarredPublishesNothing(s.disk, t, s.txns[t], Alive(s), step.outcome);
        } else {
          var u := step.txn;
          assert Own(s.disk, u, s.txns[u]);
          AdvanceStaysInFrame(s.disk, u, s.txns[u], Alive(s), step.outcome);
        }
      }
      ApplyKeepsInv(s, step);
      BarredNeverCommits(Apply(s, step), steps[1..], t);
    }
  }

  // ---- Recovery ----

  /** Where the recovery of the receipt at `run` ends when nothing fails. */
  function Recovered(d: Disk, run: int, t: int): Disk
    requires run in d.receipts
  {
    var receipt := d.receipts[run];
    var full := !receipt.request.providerOnly;
    d.(receipts := d.receipts[run := receipt.(state := CommittedClean, cleanedBy := Some(t))],
       manifestLock := if full then None else d.manifestLock,
       candidateMarkers := if full then d.candidateMarkers - {receipt.txn} else d.candidateMarkers,
       draftMarkers := if full && receipt.reusedRun then d.draftMarkers - {run} else d.draftMarkers)
  }

  /** Nothing stands in the way of cleaning up the receipt at `run`. */
  predicate Unobstructed(d: Disk, run: int, t: int, alive: set<int>)
    requires run in d.receipts
  {
    var receipt := d.receipts[run];
    && receipt.readable
    && (!receipt.request.providerOnly ==>
          && (d.manifestLock.Some? ==> d.manifestLock.value == t || d.manifestLock.value !in alive)
          && d.manifest.Some? && d.manifest.value.writer == receipt.txn
          && (run in d.draftMarkers ==> d.draftMarkers[run] == receipt.txn))
  }

  function AfterStages(d: Disk, t: int, run: int, stages: int, alive: set<int>): (d': Disk)
    requires run in d.receipts
    ensures run in d'.receipts
    decreases stages
  {
    if stages <= 0 then d
    else CleanDisk(AfterStages(d, t, run, stages - 1, alive), t, run, stages - 1, false, alive, Applied)
  }

  /** Six calls that all succeed leave the disk as Recovered says, and none is blocked. */
  lemma SixCallsRecover(d: Disk, t: int, run: int, alive: set<int>)
    requires run in d.receipts && Unobstructed(d, run, t, alive)
    ensures AfterStages(d, t, run, 6, alive) == Recovered(d, run, t)
    ensures forall k :: 0 <= k < 6 ==> !CleanBlocked(AfterStages(d, t, run, k, alive), t, run, k, alive)
  {
    var d1 := AfterStages(d, t, run, 1, alive);
    assert AfterStages(d, t, run, 0, alive) == d;
    assert !CleanBlocked(d, t, run, 0, alive);
    assert d1 == CleanDisk(d, t, run, 0, false, alive, Applied);
    var d2 := AfterStages(d, t, run, 2, alive);
    assert !CleanBlocked(d1, t, run, 1, alive);
    assert d2 == CleanDisk(d1, t, run, 1, false, alive, Applied);
    var d3 := AfterStages(d, t, run, 3, alive);
    assert !CleanBlocked(d2, t, run, 2, alive);
    assert d3 == CleanDisk(d2, t, run, 2, false, alive, Applied);
    var d4 := AfterStages(d, t, run, 4, alive);
    assert !CleanBlocked(d3, t, run, 3, alive);
    assert d4 == CleanDisk(d3, t, run, 3, false, alive, Applied);
    var d5 := AfterStages(d, t, run, 5, alive);
    assert !CleanBlocked(d4, t, run, 4, alive);
    assert d5 == CleanDisk(d4, t, run, 4, false, alive, Applied);
    var d6 := AfterStages(d, t, run, 6, alive);
    assert !CleanBlocked(d5, t, run, 5, alive);
    assert d6 == CleanDisk(d5, t, run, 5, false, alive, Applied);
    assert d6.receipts == Recovered(d, run, t).receipts;
  }

  lemma AliveStays(s: State, t: int, l: Local, d: Disk)
    requires Running(s, t) && !l.phase.Ended?
    ensures Alive(State(d, s.txns[t := l], s.dead)) == Alive(s)
  {
    var s' := State(d, s.txns[t := l], s.dead);
    forall u ensures u in Alive(s') <==> u in Alive(s) {
      assert u in s.txns && Running(s, u) <==> u in s'.txns && Running(s', u);
    }
  }

  function Calls(t: int, n: int): seq<Step> {
    if n <= 0 then [] else Calls(t, n - 1) + [Call(t, Applied)]
  }

  lemma {:induction false} ExecConcat(s: State, first: seq<Step>, rest: seq<Step>)
    ensures Exec(s, first + rest) == Exec(Exec(s, first), rest)
    decreases |first|
  {
    if first == [] {
      assert first + rest == rest;
    } else {
      assert (first + rest)[0] == first[0] && (first + rest)[1..] == first[1..] + rest;
      ExecConcat(Apply(s, first[0]), first[1..], rest);
    }
  }

  function At(s: State, t: int, l: Local, d: Disk): State {
    State(d, s.txns[t := l], s.dead)
  }

  lemma OneRecoveryCall(s: State, t: int, l: Local, d: Disk, stage: int)
    requires Running(s, t) && l.phase == Recovering(stage) && !l.faulty && stage <= LAST_STAGE
    requires l.request.run in d.receipts && !CleanBlocked(d, t, l.request.run, stage, Alive(s))
    ensures Exec(At(s, t, l, d), [Call(t, Applied)])
         == At(s, t, l.(phase := Recovering(stage + 1)),
               CleanDisk(d, t, l.request.run, stage, false, Alive(s), Applied))
  {
    hide CleanDisk, CleanBlocked, Alive;
    var m := At(s, t, l, d);
    AliveStays(s, t, l, d);
    assert m.txns[t] == l && Running(m, t);
    var e := CleanCall(d, t, l, stage, Recovering(stage + 1), Alive(s), Applied);
    assert e.local == l.(phase := Recovering(stage + 1));
    assert m.txns[t := e.local] == s.txns[t := e.local];
    assert Apply(m, Call(t, Applied)) == At(s, t, e.local, e.disk);
    ExecOne(m, Call(t, Applied));
  }

  lemma ExecOne(s: State, step: Step)
    ensures Exec(s, [step]) == Apply(s, step)
  {
    hide Apply;
    assert [step][1..] == [];
    assert Exec(Apply(s, step), []) == Apply(s, step);
  }

  function RecoveringAt(s: State, t: int, n: int): State
    requires t in s.txns && s.txns[t].request.run in s.disk.receipts
  {
    At(s, t, s.txns[t].(phase := Recovering(n)), AfterStages(s.disk, t, s.txns[t].request.run, n, Alive(s)))
  }

  /** The first `n` of six undisturbed recovery calls, as a run. */
  lemma {:induction false} RecoveryCalls(s: State, t: int, n: int)
    requires 0 <= n <= 6
    requires Running(s, t) && s.txns[t].phase == Recovering(0) && !s.txns[t].faulty
    requires var run := s.txns[t].request.run;
             && run in s.disk.receipts
             && (forall k :: 0 <= k < 6 ==> !CleanBlocked(AfterStages(s.disk, t, run, k, Alive(s)), t, run, k, Alive(s)))
    ensures Exec(s, Calls(t, n)) == RecoveringAt(s, t, n)
    decreases n
  {
    hide CleanDisk, CleanBlocked, Exec, Alive;
    if n == 0 {
      assert s.txns[t := s.txns[t].(phase := Recovering(0))] == s.txns;
      ExecNothing(s);
    } else {
      hide At;
      RecoveryCalls(s, t, n - 1);
      ExecConcat(s, Calls(t, n - 1), [Call(t, Applied)]);
      var run := s.txns[t].request.run;
      OneRecoveryCall(s, t, s.txns[t].(phase := Recovering(n - 1)), AfterStages(s.disk, t, run, n - 1, Alive(s)), n - 1);
    }
  }

  lemma ExecNothing(s: State)
    ensures Exec(s, []) == s
  {
  }

  lemma UnobstructedRecovery(s: State, t: int)
    requires Running(s, t) && s.txns[t].phase == Recovering(0) && !s.txns[t].faulty
    requires s.txns[t].request.run in s.disk.receipts
    requires Unobstructed(s.disk, s.txns[t].request.run, t, Alive(s))
    ensures Exec(s, Calls(t, 6)).disk == Recovered(s.disk, s.txns[t].request.run, t)
    ensures t in Exec(s, Calls(t, 6)).txns && !Exec(s, Calls(t, 6)).txns[t].faulty
  {
    hide CleanDisk, CleanBlocked;
    SixCallsRecover(s.disk, t, s.txns[t].request.run, Alive(s));
    RecoveryCalls(s, t, 6);
  }

  // ---- Whose draft marker it is ----

  /** A draft's owner marker lies beside a draft, and is that of the promotion which has
      committed the draft, if one has. */
  ghost predicate RunMarkers(d: Disk, run: int) {
    run in d.draftMarkers ==>
      && run in d.runs && d.runs[run].draft.Some?
      && forall c :: c in d.committed && !d.committed[c].providerOnly && d.committed[c].run == run ==> d.draftMarkers[run] == c
  }

  /** A promotion that placed the draft owns the marker; one that placed the directory left none. */
  predicate PlacedMarkers(d: Disk, t: int, l: Local) {
    l.request.run in d.draftMarkers ==> (l.placedDraft ==> d.draftMarkers[l.request.run] == t) && !l.placedRun
  }

  ghost predicate MarkerInv(s: State) {
    && (forall run :: run in s.disk.draftMarkers ==> RunMarkers(s.disk, run))
    && (forall t :: Running(s, t) ==> PlacedMarkers(s.disk, t, s.txns[t]))
  }

  /** What a call of `t` does to draft markers: only its own run's may change, and they stay right. */
  ghost predicate MarkersKept(d: Disk, t: int, l: Local, e: Effect) {
    && (forall r :: r != l.request.run || l.phase.Staged? ==> SameAt(d.draftMarkers, e.disk.draftMarkers, r))
    && (Own(d, t, l) && !l.phase.Ended? && RunMarkers(d, l.request.run) && PlacedMarkers(d, t, l) ==>
          RunMarkers(e.disk, l.request.run) && PlacedMarkers(e.disk, t, e.local))
  }

  /** A call that touches neither draft, marker nor commit, and claims nothing new. */
  predicate LeavesDrafts(d: Disk, l: Local, e: Effect) {
    && e.disk.runs == d.runs && e.disk.draftMarkers == d.draftMarkers && e.disk.committed == d.committed
    && e.local.request == l.request
    && (e.local.placedDraft ==> l.placedDraft) && (e.local.placedRun ==> l.placedRun)
  }

  lemma LeavingKeepsMarkers(d: Disk, t: int, l: Local, e: Effect)
    requires LeavesDrafts(d, l, e)
    ensures MarkersKept(d, t, l, e)
  {
    hide Own;
  }

  lemma PlaceProviderKeepsMarkers(d: Disk, t: int, l: Local, o: Outcome)
    requires l.phase.Recorded? && l.request.providerOnly
    ensures MarkersKept(d, t, l, PlaceProvider(d, t, l, o))
  {
    hide ManifestInv, History, ReceiptInv;
  }

  lemma PlaceDraftKeepsMarkers(d: Disk, t: int, l: Local, o: Outcome)
    requires l.phase.Recorded? && !l.request.providerOnly && l.existing
    ensures MarkersKept(d, t, l, PlaceDraft(d, t, l, o))
  {
    hide ManifestInv, ReceiptInv;
  }

  lemma PlaceRunKeepsMarkers(d: Disk, t: int, l: Local, o: Outcome)
    requires l.phase.Recorded? && !l.request.providerOnly && !l.existing
    ensures MarkersKept(d, t, l, PlaceRun(d, t, l, o))
  {
    hide ManifestInv, History, ReceiptInv;
  }

  lemma CommitKeepsMarkers(d: Disk, t: int, l: Local, o: Outcome)
    requires l.phase.Fenced?
    ensures MarkersKept(d, t, l, Commit(d, t, l, o))
  {
    hide ManifestInv, History, ReceiptInv;
  }

  lemma DropDraftKeepsMarkers(d: Disk, t: int, l: Local, o: Outcome)
    requires l.phase.RollingBack?
    ensures MarkersKept(d, t, l, DropDraft(d, t, l, o))
  {
    hide Own;
  }

  lemma DropRunKeepsMarkers(d: Disk, t: int, l: Local, o: Outcome)
    requires l.phase.RollingBack?
    ensures MarkersKept(d, t, l, DropRun(d, t, l, o))
  {
    hide Own;
  }

  /** Dropping a marker, or the marker of another kind, keeps them right. */
  lemma CleanCallKeepsMarkers(d: Disk, t: int, l: Local, stage: int, next: Phase, alive: set<int>, o: Outcome)
    requires !l.phase.Staged? && l.request.run in d.receipts
    ensures MarkersKept(d, t, l, CleanCall(d, t, l, stage, next, alive, o))
  {
    hide Own, CleanBlocked, CleanFaulty, Rewritten;
  }

  lemma EndKeepsMarkers(d: Disk, t: int, l: Local, o: Outcome)
    ensures MarkersKept(d, t, l, End(d, t, l, o))
  {
    hide Own;
    LeavingKeepsMarkers(d, t, l, End(d, t, l, o));
  }

  lemma CleanOwnKeepsMarkers(d: Disk, t: int, l: Local, stage: int, alive: set<int>, o: Outcome)
    requires l.phase.Cleaning?
    ensures MarkersKept(d, t, l, CleanOwn(d, t, l, stage, alive, o))
  {
    hide MarkersKept, CleanCall, End;
    EndKeepsMarkers(d, t, l, o);
    if l.request.run in d.receipts {
      CleanCallKeepsMarkers(d, t, l, stage, Cleaning(stage + 1), alive, o);
      LeavingKeepsMarkers(d, t, l, Reopen(d, t, l, Cleaning(stage + 1), o));
    }
  }

  lemma RecoverKeepsMarkers(d: Disk, t: int, l: Local, stage: int, alive: set<int>, o: Outcome)
    requires l.phase.Recovering?
    ensures MarkersKept(d, t, l, Recover(d, t, l, stage, alive, o))
  {
    hide MarkersKept, CleanCall, End, Proceed;
    EndKeepsMarkers(d, t, l, o);
    if l.request.run in d.receipts {
      CleanCallKeepsMarkers(d, t, l, stage, Recovering(stage + 1), alive, o);
      LeavingKeepsMarkers(d, t, l, Effect(d, l.(phase := Proceed(l, d.receipts[l.request.run]))));
    }
  }

  lemma ReadingLeavesDrafts(d: Disk, t: int, l: Local, alive: set<int>, o: Outcome)
    ensures LeavesDrafts(d, l, TakeRunLock(d, t, l, alive, o)) && LeavesDrafts(d, l, ReadReceipt(d, l, o))
    ensures LeavesDrafts(d, l, InspectRun(d, l, o))
  {
    hide Proceed, CommitPresent;
  }

  lemma UpgradeLeavesDrafts(d: Disk, l: Local, o: Outcome)
    ensures LeavesDrafts(d, l, Upgrade(d, l, o))
  {
  }

  lemma WriteReceiptLeavesDrafts(d: Disk, t: int, l: Local, o: Outcome)
    ensures LeavesDrafts(d, l, WriteReceipt(d, t, l, o))
  {
  }

  lemma ReceiptUpdatesLeaveDrafts(d: Disk, t: int, l: Local, o: Outcome)
    ensures LeavesDrafts(d, l, Intend(d, l, o)) && LeavesDrafts(d, l, DropReceipt(d, t, l, o))
  {
  }

  lemma CandidatesLeaveDrafts(d: Disk, t: int, l: Local, o: Outcome)
    ensures LeavesDrafts(d, l, Propose(d, t, l, o)) && LeavesDrafts(d, l, DropCandidate(d, t, l, o))
  {
  }

  lemma FencesLeaveDrafts(d: Disk, t: int, l: Local, alive: set<int>, o: Outcome)
    ensures LeavesDrafts(d, l, Fence(d, t, l, alive, o)) && LeavesDrafts(d, l, DropFence(d, t, l, o))
  {
  }

  lemma PlaceKeepsMarkers(d: Disk, t: int, l: Local, o: Outcome)
    requires l.phase.Recorded?
    ensures MarkersKept(d, t, l, Place(d, t, l, o))
  {
    hide MarkersKept, PlaceProvider, PlaceDraft, PlaceRun;
    if l.request.providerOnly {
      PlaceProviderKeepsMarkers(d, t, l, o);
    } else if l.existing {
      PlaceDraftKeepsMarkers(d, t, l, o);
    } else {
      PlaceRunKeepsMarkers(d, t, l, o);
    }
  }

  lemma RollBackKeepsMarkers(d: Disk, t: int, l: Local, stage: int, o: Outcome)
    requires l.phase.RollingBack?
    ensures MarkersKept(d, t, l, RollBack(d, t, l, stage, o))
  {
    hide MarkersKept, LeavesDrafts, DropCandidate, DropFence, DropDraft, DropRun, DropReceipt, End, Fence, Propose, Intend;
    ReceiptUpdatesLeaveDrafts(d, t, l, o);
    CandidatesLeaveDrafts(d, t, l, o);
    FencesLeaveDrafts(d, t, l, {}, o);
    DropDraftKeepsMarkers(d, t, l, o);
    DropRunKeepsMarkers(d, t, l, o);
    EndKeepsMarkers(d, t, l, o);
    LeavingKeepsMarkers(d, t, l, DropCandidate(d, t, l, o));
    LeavingKeepsMarkers(d, t, l, DropFence(d, t, l, o));
    LeavingKeepsMarkers(d, t, l, DropReceipt(d, t, l, o));
  }

  lemma AdvanceKeepsMarkers(d: Disk, t: int, l: Local, alive: set<int>, o: Outcome)
    ensures MarkersKept(d, t, l, Advance(d, t, l, alive, o))
  {
    hide MarkersKept, LeavesDrafts, CleanOwn, Recover, TakeRunLock, ReadReceipt, Upgrade, InspectRun, WriteReceipt, Place,
         Propose, Intend, Fence, Commit, RollBack, DropCandidate, DropFence, DropReceipt;
    ReadingLeavesDrafts(d, t, l, alive, o);
    UpgradeLeavesDrafts(d, l, o);
    WriteReceiptLeavesDrafts(d, t, l, o);
    ReceiptUpdatesLeaveDrafts(d, t, l, o);
    CandidatesLeaveDrafts(d, t, l, o);
    FencesLeaveDrafts(d, t, l, alive, o);
    match l.phase {
      case Recorded => PlaceKeepsMarkers(d, t, l, o);
      case Fenced => CommitKeepsMarkers(d, t, l, o);
      case Recovering(stage) => RecoverKeepsMarkers(d, t, l, stage, alive, o);
      case Cleaning(stage) => CleanOwnKeepsMarkers(d, t, l, stage, alive, o);
      case RollingBack(stage) => RollBackKeepsMarkers(d, t, l, stage, o);
      case Staged => LeavingKeepsMarkers(d, t, l, TakeRunLock(d, t, l, alive, o));
      case Locked => LeavingKeepsMarkers(d, t, l, ReadReceipt(d, l, o));
      case Upgrading => LeavingKeepsMarkers(d, t, l, Upgrade(d, l, o));
      case Cleared => LeavingKeepsMarkers(d, t, l, InspectRun(d, l, o));
      case Inspected => LeavingKeepsMarkers(d, t, l, WriteReceipt(d, t, l, o));
      case Placed => LeavingKeepsMarkers(d, t, l, Propose(d, t, l, o));
      case Proposed => LeavingKeepsMarkers(d, t, l, Intend(d, l, o));
      case Intended => LeavingKeepsMarkers(d, t, l, Fence(d, t, l, alive, o));
      case Ended => LeavesItself(d, l);
        LeavingKeepsMarkers(d, t, l, Effect(d, l));
    }
  }

  lemma LeavesItself(d: Disk, l: Local)
    ensures LeavesDrafts(d, l, Effect(d, l))
  {
  }

  lemma ApplyKeepsMarkers(s: State, step: Step)
    requires Inv(s) && MarkerInv(s)
    ensures MarkerInv(Apply(s, step))
  {
    hide Advance, Inv, RunMarkers, PlacedMarkers, LocalInv;
    var s' := Apply(s, step);
    if step.Call? && Running(s, step.txn) {
      CallKeepsMarkers(s, step.txn, step.outcome);
    } else if step.Begin? {
      forall u | Running(s', u) ensures PlacedMarkers(s'.disk, u, s'.txns[u]) {
        assert u == step.txn || Running(s, u);
        BeginnersPlacedNothing(s.disk, u, step.request);
      }
    } else {
      assert forall u :: Running(s', u) ==> Running(s, u);
    }
  }

  lemma BeginnersPlacedNothing(d: Disk, t: int, request: Request)
    ensures PlacedMarkers(d, t, Local(request, Staged, false, false, false, false, false, false, false, false))
  {
  }

  lemma CallKeepsMarkers(s: State, t: int, o: Outcome)
    requires Inv(s) && MarkerInv(s) && Running(s, t)
    ensures MarkerInv(Apply(s, Call(t, o)))
  {
    hide Advance, History, ManifestInv, ReceiptInv;
    var d, l := s.disk, s.txns[t];
    var e := Advance(d, t, l, Alive(s), o);
    var s' := Apply(s, Call(t, o));
    assert Own(d, t, l);
    AdvanceKeepsMarkers(d, t, l, Alive(s), o);
    AdvanceStaysInFrame(d, t, l, Alive(s), o);
    MarkersElsewhere(s, t, e);
  }

  lemma MarkersOfOtherRun(s: State, t: int, e: Effect, r: int)
    requires Running(s, t) && Frame(s.disk, t, s.txns[t], Alive(s), e) && MarkersKept(s.disk, t, s.txns[t], e)
    requires r != s.txns[t].request.run || s.txns[t].phase.Staged?
    requires r in e.disk.draftMarkers && (r in s.disk.draftMarkers ==> RunMarkers(s.disk, r))
    ensures RunMarkers(e.disk, r)
  {
    hide Own;
    assert SameAt(s.disk.draftMarkers, e.disk.draftMarkers, r);
    assert r != s.txns[t].request.run ==> SameDirectories(s.disk, e.disk, r);
    forall c | c in e.disk.committed && !e.disk.committed[c].providerOnly && e.disk.committed[c].run == r
      ensures e.disk.draftMarkers[r] == c
    {
      assert c in s.disk.committed && s.disk.committed[c] == e.disk.committed[c];
    }
  }

  lemma PlacedByOther(s: State, t: int, e: Effect, u: int)
    requires Running(s, t) && Running(s, u) && u != t && LocalInv(s.disk, t, s.txns[t]) && LocalInv(s.disk, u, s.txns[u])
    requires PlacedMarkers(s.disk, u, s.txns[u]) && MarkersKept(s.disk, t, s.txns[t], e)
    ensures PlacedMarkers(e.disk, u, s.txns[u])
  {
    hide Own, Revocable, InPlace, AsInspected;
    var r := s.txns[u].request.run;
    if r != s.txns[t].request.run || s.txns[t].phase.Staged? {
      assert SameAt(s.disk.draftMarkers, e.disk.draftMarkers, r);
    }
  }

  /** What a call leaves alone stays right, and the rest is its own. */
  lemma MarkersElsewhere(s: State, t: int, e: Effect)
    requires Inv(s) && MarkerInv(s) && Running(s, t)
    requires Frame(s.disk, t, s.txns[t], Alive(s), e) && MarkersKept(s.disk, t, s.txns[t], e)
    requires Own(s.disk, t, s.txns[t]) && Own(e.disk, t, e.local)
    ensures MarkerInv(State(e.disk, s.txns[t := e.local], s.dead))
  {
    hide Own, ManifestInv, History, ReceiptInv;
    var s' := State(e.disk, s.txns[t := e.local], s.dead);
    var run := s.txns[t].request.run;
    assert RunMarkers(s.disk, run);
    assert PlacedMarkers(s.disk, t, s.txns[t]);
    forall r | r in e.disk.draftMarkers ensures RunMarkers(e.disk, r) {
      if r != run || s.txns[t].phase.Staged? {
        MarkersOfOtherRun(s, t, e, r);
      }
    }
    forall u | Running(s', u) ensures PlacedMarkers(e.disk, u, s'.txns[u]) {
      if u != t {
        assert Running(s, u);
        PlacedByOther(s, t, e, u);
      }
    }
  }

  lemma {:induction false} ExecKeepsMarkers(s: State, steps: seq<Step>)
    requires Inv(s) && MarkerInv(s)
    ensures MarkerInv(Exec(s, steps))
    decreases |steps|
  {
    hide Inv, MarkerInv, Apply;
    if steps != [] {
      ApplyKeepsInv(s, steps[0]);
      ApplyKeepsMarkers(s, steps[0]);
      ExecKeepsMarkers(Apply(s, steps[0]), steps[1..]);
    }
  }

  lemma ReachableMarkers(steps: seq<Step>)
    ensures MarkerInv(Exec(Init(), steps))
  {
    hide Exec;
    ReachableInv([]);
    assert Exec(Init(), []) == Init() by { ExecNothing(Init()); }
    ExecKeepsMarkers(Init(), steps);
  }

  // ---- A rerun completes the clean-up ----

  /** A promotion is about to read the receipt of a committed promotion that still needs
      clean-up, and nobody alive holds the manifest lock. */
  predicate AboutToRecover(s: State, t: int, run: int) {
    && Running(s, t) && s.txns[t].phase.Locked? && s.txns[t].request.run == run
    && run in s.disk.receipts && s.disk.receipts[run].readable
    && CommitPresent(s.disk, s.disk.receipts[run])
    && (s.disk.receipts[run].state != CommittedClean || s.txns[t].tookOverStale)
    && (s.disk.manifestLock.Some? ==> s.disk.manifestLock.value !in Alive(s))
  }

  /** In a reachable state, that is enough for nothing to stand in the way. */
  lemma RecoveryIsUnobstructed(steps: seq<Step>, t: int, run: int)
    requires AboutToRecover(Exec(Init(), steps), t, run)
    ensures Unobstructed(Exec(Init(), steps).disk, run, t, Alive(Exec(Init(), steps)))
  {
    hide Exec, LocalInv, CommitPresent;
    var d := Exec(Init(), steps).disk;
    CommitDetectionIsExact(steps, run);
    ReachableInv(steps);
    ReachableMarkers(steps);
    assert ReceiptInv(d, run);
    if run in d.draftMarkers {
      assert RunMarkers(d, run);
    }
  }

  lemma ReadingStartsRecovery(s: State, t: int, run: int)
    requires AboutToRecover(s, t, run)
    ensures var s' := Apply(s, Call(t, Applied));
            && s'.disk == s.disk && Alive(s') == Alive(s)
            && Running(s', t) && s'.txns[t].phase == Recovering(0) && !s'.txns[t].faulty && s'.txns[t].request.run == run
  {
    hide CommitPresent, Alive, Proceed;
    var l := ReadReceipt(s.disk, s.txns[t], Applied).local;
    AliveStays(s, t, l, s.disk);
    assert Apply(s, Call(t, Applied)) == State(s.disk, s.txns[t := l], s.dead);
  }

  /** The call that reads the receipt, and six clean-up calls. */
  function RerunCalls(t: int): seq<Step> {
    [Call(t, Applied)] + Calls(t, 6)
  }

  lemma RerunFrom(s: State, t: int, run: int)
    requires AboutToRecover(s, t, run) && Unobstructed(s.disk, run, t, Alive(s))
    ensures Exec(s, RerunCalls(t)).disk == Recovered(s.disk, run, t)
    ensures t in Exec(s, RerunCalls(t)).txns && !Exec(s, RerunCalls(t)).txns[t].faulty
  {
    hide Exec, Recovered, Unobstructed, Alive, Apply, Calls, CommitPresent;
    ReadingStartsRecovery(s, t, run);
    var s' := Apply(s, Call(t, Applied));
    UnobstructedRecovery(s', t);
    ExecConcat(s, [Call(t, Applied)], Calls(t, 6));
    ExecOne(s, Call(t, Applied));
  }

  /** From any reachable state: a rerun that reads a readable receipt whose commit is present,
      with no live holder of the manifest lock, ends in six calls in the recovered disk:
      receipt committed-clean, no owner marker and no manifest lock of that promotion left. */
  lemma UndisturbedRecoveryCompletes(steps: seq<Step>, t: int, run: int)
    requires AboutToRecover(Exec(Init(), steps), t, run)
    ensures var s := Exec(Init(), steps);
            && Exec(s, RerunCalls(t)).disk == Recovered(s.disk, run, t)
            && t in Exec(s, RerunCalls(t)).txns && !Exec(s, RerunCalls(t)).txns[t].faulty
  {
    hide Exec, Recovered, Unobstructed, Alive, RerunCalls, CommitPresent;
    RecoveryIsUnobstructed(steps, t, run);
    RerunFrom(Exec(Init(), steps), t, run);
  }

  // ---- Whatever was interrupted before ----

  /** A step that at most cleans up after the commit of `run`: a crash, a new promotion, or a
      call of a promotion of that run which takes the lock, reads the receipt or cleans up. */
  predicate CleansUp(s: State, step: Step, run: int) {
    (step.Call? && Running(s, step.txn)) ==>
      var l := s.txns[step.txn];
      l.request.run == run && (l.phase.Staged? || l.phase.Locked? || l.phase.Recovering? || l.phase.Cleaning?)
  }

  predicate CleanUpRun(s: State, steps: seq<Step>, run: int)
    decreases |steps|
  {
    steps == [] || (CleansUp(s, steps[0], run) && CleanUpRun(Apply(s, steps[0]), steps[1..], run))
  }

  /** The disk with everything that cleaning up after `run` may change put to its last value. */
  function Settled(d: Disk, run: int): Disk
    requires run in d.receipts
  {
    var receipt := d.receipts[run];
    var full := !receipt.request.providerOnly;
    d.(receipts := d.receipts[run := receipt.(state := CommittedClean, cleanedBy := None, readable := true)],
       runLocks := d.runLocks - {run},
       manifestLock := if full then None else d.manifestLock,
       candidateMarkers := if full then d.candidateMarkers - {receipt.txn} else d.candidateMarkers,
       draftMarkers := if full && receipt.reusedRun then d.draftMarkers - {run} else d.draftMarkers)
  }

  /** The settled disk as the promotion `t` leaves it: cleaned by it, under its run lock. */
  function ClosedBy(d: Disk, run: int, t: int): Disk
    requires run in d.receipts
  {
    d.(receipts := d.receipts[run := d.receipts[run].(cleanedBy := Some(t))], runLocks := d.runLocks[run := t])
  }

  lemma CleanCallSettles(d: Disk, t: int, run: int, stage: int, faulty: bool, alive: set<int>, o: Outcome)
    requires run in d.receipts
    ensures var d' := CleanDisk(d, t, run, stage, faulty, alive, o);
            run in d'.receipts && Settled(d', run) == Settled(d, run)
  {
    hide CleanBlocked;
    var d' := CleanDisk(d, t, run, stage, faulty, alive, o);
    var a, b := Settled(d, run), Settled(d', run);
    assert a.receipts == b.receipts;
    assert a.candidateMarkers == b.candidateMarkers;
    assert a.draftMarkers == b.draftMarkers;
  }

  lemma ReopenSettles(d: Disk, t: int, l: Local, next: Phase, o: Outcome)
    requires l.request.run in d.receipts
    ensures var e := Reopen(d, t, l, next, o);
            l.request.run in e.disk.receipts && Settled(e.disk, l.request.run) == Settled(d, l.request.run)
  {
    assert Settled(Reopen(d, t, l, next, o).disk, l.request.run).receipts == Settled(d, l.request.run).receipts;
  }

  lemma EndSettles(d: Disk, t: int, l: Local, o: Outcome)
    requires l.request.run in d.receipts
    ensures var e := End(d, t, l, o); l.request.run in e.disk.receipts && Settled(e.disk, l.request.run) == Settled(d, l.request.run)
  {
    assert Settled(End(d, t, l, o).disk, l.request.run).runLocks == Settled(d, l.request.run).runLocks;
  }

  lemma RunLockSettles(d: Disk, t: int, l: Local, alive: set<int>, o: Outcome)
    requires l.request.run in d.receipts
    ensures var e := TakeRunLock(d, t, l, alive, o);
            l.request.run in e.disk.receipts && Settled(e.disk, l.request.run) == Settled(d, l.request.run)
  {
    assert Settled(TakeRunLock(d, t, l, alive, o).disk, l.request.run).runLocks == Settled(d, l.request.run).runLocks;
  }

  lemma CleanUpCallSettles(d: Disk, t: int, l: Local, alive: set<int>, o: Outcome)
    requires l.request.run in d.receipts
    requires l.phase.Staged? || l.phase.Locked? || l.phase.Recovering? || l.phase.Cleaning?
    ensures var e := Advance(d, t, l, alive, o);
            l.request.run in e.disk.receipts && Settled(e.disk, l.request.run) == Settled(d, l.request.run)
  {
    hide CleanDisk, Reopen, End, TakeRunLock, Settled, CleanFaulty, Proceed;
    EndSettles(d, t, l, o);
    RunLockSettles(d, t, l, alive, o);
    match l.phase {
      case Recovering(stage) => CleanCallSettles(d, t, l.request.run, stage, l.faulty, alive, o);
      case Cleaning(stage) =>
        CleanCallSettles(d, t, l.request.run, stage, l.faulty, alive, o);
        ReopenSettles(d, t, l, Cleaning(stage + 1), o);
      case _ =>
    }
  }

  lemma {:induction false} CleanUpRunSettles(s: State, steps: seq<Step>, run: int)
    requires run in s.disk.receipts && CleanUpRun(s, steps, run)
    ensures run in Exec(s, steps).disk.receipts && Settled(Exec(s, steps).disk, run) == Settled(s.disk, run)
    decreases |steps|
  {
    hide Settled, Advance, Alive;
    if steps != [] {
      var step := steps[0];
      if step.Call? && Running(s, step.txn) {
        CleanUpCallSettles(s.disk, step.txn, s.txns[step.txn], Alive(s), step.outcome);
      }
      CleanUpRunSettles(Apply(s, step), steps[1..], run);
    }
  }

  lemma RecoveredIsSettled(d: Disk, run: int, t: int)
    requires run in d.receipts && d.receipts[run].readable && run in d.runLocks && d.runLocks[run] == t
    ensures Recovered(d, run, t) == ClosedBy(Settled(d, run), run, t)
  {
    var a, b := Recovered(d, run, t), ClosedBy(Settled(d, run), run, t);
    assert a.receipts == b.receipts;
    assert a.runLocks == b.runLocks;
  }

  /** Recovery converges.  Take any reachable state with a receipt, and let anything happen
      that at most cleans up after it: any clean-ups of any promotions of the run, each call
      failing or applied or both, cut short by crashes anywhere.  A rerun that then reads the
      receipt and is not disturbed ends in a disk that depends only on the first state, the
      run and the rerun: the same whatever was interrupted before. */
  lemma RecoveryConverges(steps: seq<Step>, more: seq<Step>, t: int, run: int)
    requires run in Exec(Init(), steps).disk.receipts && CleanUpRun(Exec(Init(), steps), more, run)
    requires AboutToRecover(Exec(Exec(Init(), steps), more), t, run)
    ensures Exec(Exec(Exec(Init(), steps), more), RerunCalls(t)).disk == ClosedBy(Settled(Exec(Init(), steps).disk, run), run, t)
  {
    hide Exec, Recovered, Settled, ClosedBy, CleanUpRun, CommitPresent, Alive;
    var s := Exec(Exec(Init(), steps), more);
    ExecConcat(Init(), steps, more);
    UndisturbedRecoveryCompletes(steps + more, t, run);
    CleanUpRunSettles(Exec(Init(), steps), more, run);
    ReachableInv(steps + more);
    assert LocalInv(s.disk, t, s.txns[t]);
    RecoveredIsSettled(s.disk, run, t);
  }

  // ---- Among promotions of other runs ----

  /** What of the disk concerns one run, and the live manifest. */
  datatype Part = Part(
    directory: Option<RunDirectory>,
    manifest: Option<Manifest>,
    receipt: Receipt,
    runLock: Option<int>,
    candidateMarked: bool,
    draftMarker: Option<int>)

  function Found<V>(m: map<int, V>, r: int): Option<V> {
    if r in m then Some(m[r]) else None
  }

  function PartOf(d: Disk, run: int): Part
    requires run in d.receipts
  {
    Part(Found(d.runs, run), d.manifest, d.receipts[run], Found(d.runLocks, run),
         d.receipts[run].txn in d.candidateMarkers, Found(d.draftMarkers, run))
  }

  /** A step that cleans up after `run`, or one of a promotion of another run, whatever it does,
      short of replacing the live manifest. */
  predicate SparesCommit(s: State, step: Step, run: int) {
    || CleansUp(s, step, run)
    || (step.Call? && Running(s, step.txn) && s.txns[step.txn].request.run != run
        && Apply(s, step).disk.manifest == s.disk.manifest)
  }

  predicate SparingRun(s: State, steps: seq<Step>, run: int)
    decreases |steps|
  {
    steps == [] || (SparesCommit(s, steps[0], run) && SparingRun(Apply(s, steps[0]), steps[1..], run))
  }

  /** A call changes no candidate's marker but its own and that of its run's receipt. */
  ghost predicate CandidatesKept(d: Disk, t: int, l: Local, e: Effect) {
    forall x :: x != t && !(l.request.run in d.receipts && x == d.receipts[l.request.run].txn) ==>
      (x in e.disk.candidateMarkers <==> x in d.candidateMarkers)
  }

  lemma WorkLeavesCandidates(d: Disk, t: int, l: Local, alive: set<int>, o: Outcome)
    ensures TakeRunLock(d, t, l, alive, o).disk.candidateMarkers == ReadReceipt(d, l, o).disk.candidateMarkers == d.candidateMarkers
    ensures Upgrade(d, l, o).disk.candidateMarkers == InspectRun(d, l, o).disk.candidateMarkers == d.candidateMarkers
    ensures WriteReceipt(d, t, l, o).disk.candidateMarkers == Place(d, t, l, o).disk.candidateMarkers == d.candidateMarkers
  {
    hide CommitPresent, Proceed;
  }

  lemma CommitLeavesCandidates(d: Disk, t: int, l: Local, alive: set<int>, o: Outcome)
    ensures Intend(d, l, o).disk.candidateMarkers == Fence(d, t, l, alive, o).disk.candidateMarkers == d.candidateMarkers
    ensures Commit(d, t, l, o).disk.candidateMarkers == End(d, t, l, o).disk.candidateMarkers == d.candidateMarkers
  {
  }

  lemma RollBackKeepsCandidates(d: Disk, t: int, l: Local, stage: int, o: Outcome)
    ensures CandidatesKept(d, t, l, RollBack(d, t, l, stage, o))
  {
    hide DropFence, DropDraft, DropRun, DropReceipt, End;
    DropsLeaveCandidates(d, t, l, o);
    CommitLeavesCandidates(d, t, l, {}, o);
  }

  lemma DropsLeaveCandidates(d: Disk, t: int, l: Local, o: Outcome)
    ensures DropFence(d, t, l, o).disk.candidateMarkers == DropDraft(d, t, l, o).disk.candidateMarkers == d.candidateMarkers
    ensures DropRun(d, t, l, o).disk.candidateMarkers == DropReceipt(d, t, l, o).disk.candidateMarkers == d.candidateMarkers
  {
  }

  lemma CleanUpKeepsCandidates(d: Disk, t: int, l: Local, stage: int, alive: set<int>, o: Outcome)
    ensures CandidatesKept(d, t, l, CleanOwn(d, t, l, stage, alive, o))
    ensures CandidatesKept(d, t, l, Recover(d, t, l, stage, alive, o))
  {
    hide CleanBlocked, CleanFaulty, Proceed, Rewritten;
  }

  lemma AdvanceKeepsCandidates(d: Disk, t: int, l: Local, alive: set<int>, o: Outcome)
    ensures CandidatesKept(d, t, l, Advance(d, t, l, alive, o))
  {
    hide TakeRunLock, ReadReceipt, Upgrade, InspectRun, WriteReceipt, Place, Intend, Fence, Commit, End, RollBack, CleanOwn,
         Recover;
    WorkLeavesCandidates(d, t, l, alive, o);
    CommitLeavesCandidates(d, t, l, alive, o);
    match l.phase {
      case RollingBack(stage) => RollBackKeepsCandidates(d, t, l, stage, o);
      case Cleaning(stage) => CleanUpKeepsCandidates(d, t, l, stage, alive, o);
      case Recovering(stage) => CleanUpKeepsCandidates(d, t, l, stage, alive, o);
      case _ =>
    }
  }

  lemma OwnHolds(s: State, t: int)
    requires Inv(s) && Running(s, t)
    ensures Own(s.disk, t, s.txns[t])
  {
  }

  lemma HoldsRunLock(s: State, t: int, run: int)
    requires Inv(s) && Running(s, t) && s.txns[t].phase.Locked? && s.txns[t].request.run == run
    ensures run in s.disk.runLocks && s.disk.runLocks[run] == t
  {
    assert LocalInv(s.disk, t, s.txns[t]);
  }

  /** A call of another run's promotion touches nothing of this run. */
  lemma OtherRunSpares(s: State, t: int, o: Outcome, run: int)
    requires Inv(s) && Running(s, t) && s.txns[t].request.run != run && run in s.disk.receipts
    ensures var e := Advance(s.disk, t, s.txns[t], Alive(s), o);
            && run in e.disk.receipts && e.disk.receipts[run] == s.disk.receipts[run]
            && SameDirectories(s.disk, e.disk, run) && SameAt(s.disk.draftMarkers, e.disk.draftMarkers, run)
            && (s.disk.receipts[run].txn in e.disk.candidateMarkers <==> s.disk.receipts[run].txn in s.disk.candidateMarkers)
  {
    hide Advance, PhaseInv, History, ManifestInv, Own;
    var l := s.txns[t];
    var e := Advance(s.disk, t, l, Alive(s), o);
    OwnHolds(s, t);
    AdvanceStaysInFrame(s.disk, t, l, Alive(s), o);
    AdvanceKeepsMarkers(s.disk, t, l, Alive(s), o);
    AdvanceKeepsCandidates(s.disk, t, l, Alive(s), o);
    assert SameDirectories(s.disk, e.disk, run);
    assert ReceiptInv(s.disk, run);
    if l.request.run in s.disk.receipts {
      assert ReceiptInv(s.disk, l.request.run);
    }
  }

  lemma SparingStepSettles(s: State, step: Step, run: int)
    requires Inv(s) && run in s.disk.receipts && SparesCommit(s, step, run)
    ensures var s' := Apply(s, step);
            run in s'.disk.receipts && PartOf(Settled(s'.disk, run), run) == PartOf(Settled(s.disk, run), run)
            && s'.disk.receipts[run].request == s.disk.receipts[run].request
  {
    hide Inv, Advance, Alive;
    if step.Call? && Running(s, step.txn) {
      if CleansUp(s, step, run) {
        CleanUpCallSettles(s.disk, step.txn, s.txns[step.txn], Alive(s), step.outcome);
        SettledRequest(s.disk, Apply(s, step).disk, run);
      } else {
        OtherRunSpares(s, step.txn, step.outcome, run);
      }
    }
  }

  lemma SettledRequest(d: Disk, e: Disk, run: int)
    requires run in d.receipts && run in e.receipts && Settled(d, run) == Settled(e, run)
    ensures d.receipts[run].request == e.receipts[run].request
  {
    assert Settled(d, run).receipts[run].request == Settled(e, run).receipts[run].request;
  }

  lemma {:induction false} SparingRunSettles(s: State, steps: seq<Step>, run: int)
    requires Inv(s) && run in s.disk.receipts && SparingRun(s, steps, run)
    ensures var s' := Exec(s, steps);
            run in s'.disk.receipts && PartOf(Settled(s'.disk, run), run) == PartOf(Settled(s.disk, run), run)
            && s'.disk.receipts[run].request == s.disk.receipts[run].request
    decreases |steps|
  {
    hide Inv, Settled, PartOf, Apply, SparesCommit;
    if steps != [] {
      SparingStepSettles(s, steps[0], run);
      ApplyKeepsInv(s, steps[0]);
      SparingRunSettles(Apply(s, steps[0]), steps[1..], run);
    }
  }

  /** Recovery converges among other runs too.  Between the first state and the rerun, promotions
      of other runs may also do anything short of replacing the live manifest: what the rerun
      leaves of its run, and of the manifest lock it needed, is still the same. */
  lemma RecoveryConvergesAmongOthers(steps: seq<Step>, more: seq<Step>, t: int, run: int)
    requires run in Exec(Init(), steps).disk.receipts && SparingRun(Exec(Init(), steps), more, run)
    requires AboutToRecover(Exec(Exec(Init(), steps), more), t, run)
    ensures var first, last := Exec(Init(), steps).disk, Exec(Exec(Exec(Init(), steps), more), RerunCalls(t)).disk;
            && run in last.receipts && PartOf(last, run) == PartOf(ClosedBy(Settled(first, run), run, t), run)
            && (!first.receipts[run].request.providerOnly ==> last.manifestLock.None?)
  {
    hide Exec, Recovered, SparingRun, CommitPresent, Alive, LocalInv;
    var s := Exec(Exec(Init(), steps), more);
    ExecConcat(Init(), steps, more);
    UndisturbedRecoveryCompletes(steps + more, t, run);
    ReachableInv(steps);
    SparingRunSettles(Exec(Init(), steps), more, run);
    ReachableInv(steps + more);
    HoldsRunLock(s, t, run);
    RecoveredIsSettled(s.disk, run, t);
  }
}
