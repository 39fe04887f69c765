/** A draft pull request rehearsal against a remote whose branch moves only by
    compare-and-swap. Every call can fail, and a failed write may have been applied. */
module RemoteRehearsal {
  import opened Options

  type Oid = int

  /** Mine: branch, base, title, body, repository and draft flag are all those of this
      generation. Lookalike: on the rehearsal branch, but something else differs. */
  datatype Kind = Mine | Lookalike | Elsewhere

  datatype PullRequest = PullRequest(kind: Kind, head: Oid, open: bool)

  /** Pull request numbers are positions in `pulls`. */
  datatype Remote = Remote(ref: Option<Oid>, pulls: seq<PullRequest>)

  datatype Step = Blob | Tree | Commit

  datatype Mutation =
    | CreateObject(anchor: bool, step: Step)
    | CreateBranch
    | UpdateToPayload
    | CreatePull
    | ClosePull(number: nat)
    | DeleteBranch(expected: Oid)

  /** How a call ends: Lost(false) did nothing, Lost(true) was applied and its answer lost;
      Garbled was applied and answered, but the answer does not verify. */
  datatype Outcome = Good | Lost(applied: bool) | Garbled

  datatype Reply = NotAttempted | Unknown | Answered(verifies: bool)

  datatype Operation =
    | Reverify(mutation: Mutation)
    | Attempted(mutation: Mutation)
    | Response(mutation: Mutation)
    | CommittedUnknown(mutation: Mutation)
    | GenerationVerified(anchor: bool)
    | BranchCreated
    | PayloadVerified
    | PullCreated(number: nat)
    | PullRead(number: nat)
    | PullClosed(number: nat, reconciled: bool)
    | PullCloseFailed(number: nat)
    | Discovered(count: nat)
    | DiscoveryFailed
    | SkippedForeign(number: nat)
    | HeadChanged(number: nat)
    | BranchAbsent
    | BranchOwned(oid: Oid)
    | BranchForeign(oid: Oid)
    | BranchUnreadable
    | DeleteCommitted
    | DeleteFailed
    | DeleteVerified
    | DeleteUnverified

  /** The flags that steer the clean-up: which writes have been attempted. */
  datatype Flags = Flags(branchCreate: bool, payloadTransition: bool, pullCreate: bool) {
    function After(m: Mutation): Flags {
      Flags(branchCreate || m.CreateBranch?, payloadTransition || m.UpdateToPayload?, pullCreate || m.CreatePull?)
    }
  }

  /** What the program did to the branch and what the remote showed it, in order. */
  datatype Event = RefSet(before: Option<Oid>, after: Option<Oid>) | SawRef(ref: Option<Oid>) | SawPull(number: nat, pull: PullRequest)

  // ---- The remote ----

  /** What the remote does with a mutation; None when it refuses. */
  function Apply(m: Mutation, remote: Remote, anchor: Oid, payload: Oid): Option<Remote> {
    match m
    case CreateObject(_, _) => Some(remote)
    case CreateBranch => if remote.ref.None? then Some(remote.(ref := Some(anchor))) else None
    case UpdateToPayload => if remote.ref == Some(anchor) then Some(remote.(ref := Some(payload))) else None
    case CreatePull =>
      if remote.ref.Some? then Some(remote.(pulls := remote.pulls + [PullRequest(Mine, remote.ref.value, true)])) else None
    case ClosePull(n) =>
      if n < |remote.pulls| then Some(remote.(pulls := remote.pulls[n := remote.pulls[n].(open := false)])) else None
    case DeleteBranch(expected) => if remote.ref == Some(expected) then Some(remote.(ref := None)) else None
  }

  /** The branch change that a mutation makes when the remote accepts it. */
  function Moves(m: Mutation, anchor: Oid, payload: Oid): seq<Event> {
    match m
    case CreateBranch => [RefSet(None, Some(anchor))]
    case UpdateToPayload => [RefSet(Some(anchor), Some(payload))]
    case DeleteBranch(expected) => [RefSet(Some(expected), None)]
    case _ => []
  }

  /** With no other actor, what a reply says about the remote before and after. */
  predicate Consistent(m: Mutation, before: Remote, after: Remote, reply: Reply, anchor: Oid, payload: Oid) {
    match reply
    case NotAttempted => after == before
    case Unknown => after == before || Some(after) == Apply(m, before, anchor, payload)
    case Answered(_) => Some(after) == Apply(m, before, anchor, payload)
  }

  /** What an answer shows of the remote, whoever else is acting. */
  predicate Shown(m: Mutation, after: Remote, reply: Reply) {
    reply.Answered? ==>
      match m
      case CreatePull =>
        && after.ref.Some? && after.pulls != []
        && after.pulls[|after.pulls| - 1] == PullRequest(Mine, after.ref.value, true)
      case ClosePull(n) => n < |after.pulls| && !after.pulls[n].open
      case _ => true
  }

  /** With no other actor: what the live part may have done to the remote it started from. */
  predicate LiveState(start: Remote, remote: Remote, flags: Flags, number: Option<nat>, anchor: Oid, payload: Oid) {
    && (if !flags.branchCreate then remote.ref == start.ref && !flags.payloadTransition
        else remote.ref in {None, Some(anchor)} || (flags.payloadTransition && remote.ref == Some(payload)))
    && (remote.pulls == start.pulls
        || (flags.pullCreate && remote.pulls == start.pulls + [PullRequest(Mine, payload, true)]))
    && (number.Some? ==> number.value == |start.pulls| < |remote.pulls|)
  }

  /** Pull requests of this generation may be closed; nothing else changes. */
  ghost predicate OnlyCloses(before: seq<PullRequest>, after: seq<PullRequest>) {
    && |after| == |before|
    && forall i :: 0 <= i < |before| ==>
         after[i] == before[i] || (before[i].kind.Mine? && after[i] == before[i].(open := false))
  }

  /** At most the pull request `n`, one of this generation, has been closed. */
  predicate ClosedAt(before: seq<PullRequest>, after: seq<PullRequest>, n: nat) {
    || after == before
    || (n < |before| && before[n].kind.Mine? && after == before[n := before[n].(open := false)])
  }

  ghost predicate NoneOpen(pulls: seq<PullRequest>) {
    forall i :: 0 <= i < |pulls| && pulls[i].kind.Mine? ==> !pulls[i].open
  }

  // ---- The story of a run ----

  /** The milestones of a rehearsal, in order. */
  predicate Milestone(k: nat, e: Event, anchor: Oid, payload: Oid) {
    match k
    case 0 => e == RefSet(None, Some(anchor))
    case 1 => e == RefSet(Some(anchor), Some(payload))
    case 2 => e.SawPull? && e.pull == PullRequest(Mine, payload, true)
    case 3 => e.SawPull? && e.pull.kind.Mine? && !e.pull.open
    case 4 => e == SawRef(None)
    case _ => false
  }

  /** How many milestones a history passes, in order. */
  function Progress(h: seq<Event>, anchor: Oid, payload: Oid): (k: nat)
    ensures k <= 5
  {
    if h == [] then 0
    else
      var k := Progress(h[..|h| - 1], anchor, payload);
      if Milestone(k, h[|h| - 1], anchor, payload) then k + 1 else k
  }

  lemma {:induction false} ProgressGrows(h: seq<Event>, more: seq<Event>, anchor: Oid, payload: Oid)
    ensures Progress(h, anchor, payload) <= Progress(h + more, anchor, payload)
    decreases |more|
  {
    if more == [] {
      assert h + more == h;
    } else {
      assert (h + more)[..|h + more| - 1] == h + more[..|more| - 1];
      ProgressGrows(h, more[..|more| - 1], anchor, payload);
    }
  }

  lemma ProgressOne(h: seq<Event>, e: Event, anchor: Oid, payload: Oid)
    ensures Progress(h + [e], anchor, payload)
            == Progress(h, anchor, payload) + if Milestone(Progress(h, anchor, payload), e, anchor, payload) then 1 else 0
  {
    assert (h + [e])[..|h + [e]| - 1] == h;
  }

  /** Positions of the milestones a history has passed: strictly increasing, each an event of its kind. */
  lemma {:induction false} MilestonesInOrder(h: seq<Event>, anchor: Oid, payload: Oid) returns (at: seq<nat>)
    ensures |at| == Progress(h, anchor, payload)
    ensures forall k :: 0 <= k < |at| ==> at[k] < |h| && Milestone(k, h[at[k]], anchor, payload)
    ensures forall j, k :: 0 <= j < k < |at| ==> at[j] < at[k]
  {
    if h == [] {
      at := [];
    } else {
      at := MilestonesInOrder(h[..|h| - 1], anchor, payload);
      if Milestone(|at|, h[|h| - 1], anchor, payload) {
        at := at + [|h| - 1];
      }
    }
  }

  // ---- The record of operations ----

  /** Each attempt follows at once on a re-check of authority for the same mutation. */
  ghost predicate Authorized(operations: seq<Operation>) {
    forall k :: 0 <= k < |operations| && operations[k].Attempted? ==>
      k > 0 && operations[k - 1] == Reverify(operations[k].mutation)
  }

  /** The mutations that a record says were attempted. */
  function Attempts(operations: seq<Operation>): seq<Mutation> {
    if operations == [] then []
    else
      var last := operations[|operations| - 1];
      Attempts(operations[..|operations| - 1]) + if last.Attempted? then [last.mutation] else []
  }

  lemma AttemptsPush(operations: seq<Operation>, o: Operation)
    ensures Attempts(operations + [o]) == Attempts(operations) + if o.Attempted? then [o.mutation] else []
  {
    assert (operations + [o])[..|operations + [o]| - 1] == operations;
  }

  /** Every branch change starts from absent, the anchor or the payload. */
  ghost predicate OwnMoves(history: seq<Event>, anchor: Oid, payload: Oid) {
    forall e :: e in history && e.RefSet? ==>
      || e == RefSet(None, Some(anchor))
      || e == RefSet(Some(anchor), Some(payload))
      || (e.after.None? && (e.before == Some(anchor) || e.before == Some(payload)))
  }

  class Rehearsal {
    const quiet: bool           // no other actor touches the remote
    const anchor: Oid
    const payload: Oid
    var remote: Remote
    var script: seq<Outcome>    // how the coming calls end; past its end they are good
    ghost var history: seq<Event>
    ghost var sent: seq<Mutation> // the mutations that reached the network
    // the evidence
    var operations: seq<Operation>
    var violations: nat
    var number: Option<nat>     // evidence.pullRequest.number
    var stateClosed: bool       // evidence.pullRequest.state === "closed"
    var pullRequestClosed: bool
    var branchDeleted: bool
    // the flags of rehearseDisposableDraftPr
    var flags: Flags
    var anchorKnown: bool
    var payloadKnown: bool

    constructor (quiet: bool, remote: Remote, anchor: Oid, payload: Oid, script: seq<Outcome>)
      ensures this.quiet == quiet && this.remote == remote && this.script == script
      ensures this.anchor == anchor && this.payload == payload && Fresh()
    {
      this.quiet, this.remote, this.script, this.anchor, this.payload := quiet, remote, script, anchor, payload;
      history, sent, operations, violations, number := [], [], [], 0, None;
      stateClosed, pullRequestClosed, branchDeleted := false, false, false;
      flags := Flags(false, false, false);
      anchorKnown, payloadKnown := false, false;
    }

    ghost predicate Fresh()
      reads this
    {
      && history == [] && sent == [] && operations == [] && violations == 0 && number.None?
      && !stateClosed && !pullRequestClosed && !branchDeleted
      && flags == Flags(false, false, false)
      && !anchorKnown && !payloadKnown
    }

    /** No coming call fails. */
    predicate Smooth()
      reads this`script
    {
      forall k :: 0 <= k < |script| ==> script[k].Good?
    }

    ghost predicate Valid()
      reads this`operations, this`sent, this`history
    {
      Authorized(operations) && Attempts(operations) == sent && OwnMoves(history, anchor, payload)
    }

    ghost function Reached(): (k: nat)
      reads this`history
      ensures k <= 5
    {
      Progress(history, anchor, payload)
    }

    // ---- Calls ----

    /** Other actors may do anything to the remote before a call takes effect. */
    method Others()
      modifies this`remote
      ensures quiet ==> remote == old(remote)
    {
      if !quiet {
        var next: Remote := *;
        remote := next;
      }
    }

    method Call() returns (outcome: Outcome)
      modifies this`remote, this`script
      ensures quiet ==> remote == old(remote)
      ensures old(Smooth()) ==> outcome.Good? && Smooth()
    {
      Others();
      outcome := Good;
      if script != [] {
        outcome, script := script[0], script[1..];
      }
    }

    method Note(o: Operation)
      requires Valid() && !o.Attempted?
      modifies this`operations
      ensures Valid() && operations == old(operations) + [o]
    {
      AttemptsPush(operations, o);
      operations := operations + [o];
    }

    ghost method Saw(e: Event)
      requires Valid() && !e.RefSet?
      modifies this`history
      ensures Valid() && history == old(history) + [e] && Reached() >= old(Reached())
      ensures old(Reached()) < 5 && Milestone(old(Reached()), e, anchor, payload) ==> Reached() == old(Reached()) + 1
    {
      ProgressOne(history, e, anchor, payload);
      history := history + [e];
    }

    /** The matching-refs query. */
    method ReadRef() returns (ref: Option<Option<Oid>>)
      requires Valid()
      modifies this`remote, this`script, this`history
      ensures Valid() && Reached() >= old(Reached())
      ensures quiet ==> remote == old(remote)
      ensures ref.Some? ==> ref.value == remote.ref
      ensures ref == Some(None) && old(Reached()) == 4 ==> Reached() == 5
      ensures old(Smooth()) ==> ref.Some? && Smooth()
    {
      var outcome := Call();
      if !outcome.Good? {
        return None;
      }
      Saw(SawRef(remote.ref));
      ref := Some(remote.ref);
    }

    method ReadPull(n: nat) returns (pull: Option<PullRequest>)
      requires Valid()
      modifies this`remote, this`script, this`history
      ensures Valid() && Reached() >= old(Reached())
      ensures quiet ==> remote == old(remote)
      ensures pull.Some? ==> n < |remote.pulls| && pull.value == remote.pulls[n]
      ensures pull.Some? && old(Reached()) < 5 && Milestone(old(Reached()), SawPull(n, pull.value), anchor, payload) ==>
                Reached() == old(Reached()) + 1
      ensures old(Smooth()) ==> Smooth() && (quiet && n < |remote.pulls| ==> pull.Some?)
    {
      var outcome := Call();
      if !outcome.Good? || n >= |remote.pulls| {
        return None;
      }
      Saw(SawPull(n, remote.pulls[n]));
      pull := Some(remote.pulls[n]);
    }

    /** Repository identity, then the marker; only when both hold is the re-check recorded. */
    method VerifyRemoteAuthority(m: Mutation) returns (ok: bool)
      requires Valid()
      modifies this`remote, this`script, this`operations
      ensures Valid()
      ensures operations == if ok then old(operations) + [Reverify(m)] else old(operations)
      ensures quiet ==> remote == old(remote)
      ensures old(Smooth()) ==> ok && Smooth()
    {
      var view := Call();
      if !view.Good? {
        return false;
      }
      var marker := Call();
      if !marker.Good? {
        return false;
      }
      Note(Reverify(m));
      ok := true;
    }

    /** Only the anchor and the payload are ever named as the value to delete. */
    predicate OwnTarget(m: Mutation) {
      m.DeleteBranch? ==> m.expected == anchor || m.expected == payload
    }

    method Attempt(m: Mutation)
      requires Valid() && operations != [] && operations[|operations| - 1] == Reverify(m)
      modifies this`operations, this`sent, this`flags
      ensures Valid() && operations == old(operations) + [Attempted(m)] && sent == old(sent) + [m]
      ensures flags == old(flags).After(m)
    {
      AttemptsPush(operations, Attempted(m));
      flags := flags.After(m);
      operations, sent := operations + [Attempted(m)], sent + [m];
    }

    /** The mutation reaches the network: the remote applies it or refuses it, and the answer
        may be lost or not verify. */
    method Send(m: Mutation) returns (reply: Reply)
      requires Valid() && OwnTarget(m)
      modifies this`remote, this`script, this`history
      ensures Valid() && !reply.NotAttempted?
      ensures history == old(history) + Moves(m, anchor, payload) || (reply.Unknown? && history == old(history))
      ensures Reached() >= old(Reached())
      ensures (reply.Answered? && Moves(m, anchor, payload) != []
               && Milestone(old(Reached()), Moves(m, anchor, payload)[0], anchor, payload)) ==>
                Reached() == old(Reached()) + 1
      ensures quiet ==> Consistent(m, old(remote), remote, reply, anchor, payload)
      ensures Shown(m, remote, reply)
      ensures old(Smooth()) ==> Smooth() && (quiet && Apply(m, old(remote), anchor, payload).Some? ==> reply == Answered(true))
    {
      var outcome := Call();
      var next := Apply(m, remote, anchor, payload);
      reply := Unknown;
      if next.Some? && outcome != Lost(false) {
        ProgressGrows(history, Moves(m, anchor, payload), anchor, payload);
        if Moves(m, anchor, payload) != [] {
          ProgressOne(history, Moves(m, anchor, payload)[0], anchor, payload);
        }
        remote, history := next.value, history + Moves(m, anchor, payload);
        reply := if outcome.Lost? then Unknown else Answered(outcome.Good?);
      }
    }

    /** Re-check, record the attempt, send, record the answer or its loss. */
    method RunAuthorizedRemoteMutation(m: Mutation) returns (reply: Reply)
      requires Valid() && OwnTarget(m)
      modifies this`remote, this`script, this`operations, this`history, this`sent, this`flags
      ensures Valid()
      ensures if reply.NotAttempted?
              then history == old(history) && sent == old(sent) && operations == old(operations) && flags == old(flags)
              else flags == old(flags).After(m) && sent == old(sent) + [m]
                   && operations == old(operations) + [Reverify(m)] + [Attempted(m)]
                                    + [if reply.Answered? then Response(m) else CommittedUnknown(m)]
      ensures history == old(history) + Moves(m, anchor, payload) || (!reply.Answered? && history == old(history))
      ensures Reached() >= old(Reached())
      ensures (reply.Answered? && Moves(m, anchor, payload) != []
               && Milestone(old(Reached()), Moves(m, anchor, payload)[0], anchor, payload)) ==>
                Reached() == old(Reached()) + 1
      ensures quiet ==> Consistent(m, old(remote), remote, reply, anchor, payload)
      ensures Shown(m, remote, reply)
      ensures old(Smooth()) ==> Smooth() && (quiet && Apply(m, old(remote), anchor, payload).Some? ==> reply == Answered(true))
    {
      hide Apply, Moves, Valid, Smooth, OwnTarget;
      var authorized := VerifyRemoteAuthority(m);
      if !authorized {
        return NotAttempted;
      }
      Attempt(m);
      reply := Send(m);
      Note(if reply.Answered? then Response(m) else CommittedUnknown(m));
    }

    // ---- The live part ----

    /** One object of a generation commit and its read-back. */
    method CreateVerified(m: Mutation) returns (ok: bool)
      requires Valid() && m.CreateObject?
      modifies this`remote, this`script, this`operations, this`history, this`sent, this`flags
      ensures Valid() && Reached() >= old(Reached()) && flags == old(flags)
      ensures quiet ==> remote == old(remote)
      ensures old(Smooth()) && quiet ==> ok
      ensures old(Smooth()) ==> Smooth()
    {
      hide Valid, Smooth, Milestone, Progress;
      var reply := RunAuthorizedRemoteMutation(m);
      if reply != Answered(true) {
        return false;
      }
      var readBack := Call();
      ok := readBack.Good?;
    }

    /** createGenerationCommit: blob, tree and commit, each written and read back. */
    method CreateGenerationCommit(forAnchor: bool) returns (ok: bool)
      requires Valid()
      modifies this`remote, this`script, this`operations, this`history, this`sent, this`flags
      ensures Valid() && Reached() >= old(Reached()) && flags == old(flags)
      ensures quiet ==> remote == old(remote)
      ensures old(Smooth()) && quiet ==> ok
      ensures old(Smooth()) ==> Smooth()
    {
      hide Valid, Smooth, Reached;
      ok := CreateVerified(CreateObject(forAnchor, Blob));
      if ok {
        ok := CreateVerified(CreateObject(forAnchor, Tree));
      }
      if ok {
        ok := CreateVerified(CreateObject(forAnchor, Commit));
      }
      if ok {
        Note(GenerationVerified(forAnchor));
      }
    }

    /** The two commits, the check for an existing branch, and the branch at the anchor. */
    method CreateBranchAtAnchor() returns (ok: bool)
      requires Valid() && flags == Flags(false, false, false) && number.None?
      modifies this`remote, this`script, this`operations, this`history, this`sent, this`flags,
               this`anchorKnown, this`payloadKnown
      ensures Valid() && (flags == Flags(false, false, false) || (flags == Flags(true, false, false) && anchorKnown && payloadKnown))
      ensures quiet ==> LiveState(old(remote), remote, flags, number, anchor, payload) && remote.pulls == old(remote.pulls)
      ensures flags.branchCreate && quiet ==> old(remote).ref.None?
      ensures ok ==> flags.branchCreate && Reached() >= old(Reached())
      ensures ok && old(Reached()) == 0 ==> Reached() >= 1
      ensures old(Smooth()) ==> Smooth()
      ensures old(Smooth()) && quiet && old(remote).ref.None? ==> ok && remote.ref == Some(anchor)
    {
      hide Valid, Smooth, Progress;
      ok := CreateGenerationCommit(true);
      if !ok {
        return;
      }
      anchorKnown := true;
      ok := CreateGenerationCommit(false);
      if !ok {
        return;
      }
      payloadKnown := true;
      var existing := ReadRef();
      if existing != Some(None) {
        return false;
      }
      var reply := RunAuthorizedRemoteMutation(CreateBranch);
      if reply != Answered(true) {
        return false;
      }
      Note(BranchCreated);
    }

    /** The compare-and-swap to the payload, then two reads that must show it. */
    method MoveToPayload() returns (ok: bool)
      requires Valid() && flags == Flags(true, false, false)
      modifies this`remote, this`script, this`operations, this`history, this`sent, this`flags
      ensures Valid() && flags in {Flags(true, false, false), Flags(true, true, false)} && Reached() >= old(Reached())
      ensures quiet ==> remote == old(remote) || (remote == old(remote).(ref := Some(payload)) && flags.payloadTransition)
      ensures ok && old(Reached()) == 1 ==> Reached() >= 2
      ensures ok ==> flags.payloadTransition
      ensures ok && quiet ==> remote.ref == Some(payload)
      ensures old(Smooth()) ==> Smooth()
      ensures old(Smooth()) && quiet && old(remote).ref == Some(anchor) ==> ok
    {
      hide Valid, Smooth, Progress;
      var reply := RunAuthorizedRemoteMutation(UpdateToPayload);
      if reply != Answered(true) {
        return false;
      }
      var observed := ReadRef();
      if observed != Some(Some(payload)) {
        return false;
      }
      Note(PayloadVerified);
      observed := ReadRef();
      ok := observed == Some(Some(payload));
    }

    /** The draft pull request: its answer and a second read must both show it open at the payload. */
    method CreatePullRequest() returns (ok: bool)
      requires Valid() && flags == Flags(true, true, false) && number.None?
      modifies this`remote, this`script, this`operations, this`history, this`sent, this`flags, this`number
      ensures Valid() && flags in {Flags(true, true, false), Flags(true, true, true)} && Reached() >= old(Reached())
      ensures quiet ==> remote == old(remote) || (flags.pullCreate && old(remote).ref.Some?
                        && remote == old(remote).(pulls := old(remote).pulls + [PullRequest(Mine, old(remote).ref.value, true)]))
      ensures number.Some? && quiet ==> remote != old(remote) && number.value == |old(remote).pulls|
      ensures ok ==> number.Some?
      ensures number.Some? ==> flags.pullCreate
      ensures ok && old(Reached()) == 2 ==> Reached() >= 3
      ensures old(Smooth()) ==> Smooth()
      ensures old(Smooth()) && quiet && old(remote).ref == Some(payload) ==> ok
    {
      hide Valid, Smooth, Progress, Apply;
      CreatedPull(remote);
      var reply := RunAuthorizedRemoteMutation(CreatePull);
      if reply != Answered(true) {
        return false;
      }
      var n := |remote.pulls| - 1;
      Saw(SawPull(n, remote.pulls[n]));
      if remote.pulls[n].head != payload {
        return false;
      }
      number := Some(n);
      Note(PullCreated(n));
      var verified := ReadPull(n);
      if verified != Some(PullRequest(Mine, payload, true)) {
        return false;
      }
      Note(PullRead(n));
      ok := true;
    }

    lemma CreatedPull(before: Remote)
      ensures Apply(CreatePull, before, anchor, payload)
              == if before.ref.Some? then Some(before.(pulls := before.pulls + [PullRequest(Mine, before.ref.value, true)])) else None
    {
    }

    /** The body of the try block. */
    method Live() returns (ok: bool)
      requires Fresh()
      modifies this`remote, this`script, this`operations, this`history, this`sent, this`flags, this`number,
               this`anchorKnown, this`payloadKnown
      ensures Valid()
      ensures flags.branchCreate ==> anchorKnown
      ensures flags.payloadTransition || flags.pullCreate ==> payloadKnown && flags.branchCreate
      ensures number.Some? ==> flags.pullCreate
      ensures quiet ==> LiveState(old(remote), remote, flags, number, anchor, payload)
      ensures ok ==> Reached() >= 3 && number.Some?
      ensures old(Smooth()) && quiet && old(remote).ref.None? ==> ok
    {
      hide Smooth;
      ok := CreateBranchAtAnchor();
      if !ok {
        return;
      }
      ok := MoveToPayload();
      if !ok {
        return;
      }
      ok := CreatePullRequest();
    }

    // ---- The clean-up ----

    lemma ClosesOne(before: Remote, after: Remote, n: nat, reply: Reply)
      requires Consistent(ClosePull(n), before, after, reply, anchor, payload)
      requires n < |before.pulls| && before.pulls[n].kind.Mine?
      ensures after.ref == before.ref && ClosedAt(before.pulls, after.pulls, n)
      ensures Apply(ClosePull(n), before, anchor, payload).Some?
    {
    }

    /** The answer to a close, or a read when the answer is uncertain, must show it closed. */
    method ConfirmClosed(n: nat, reply: Reply) returns (ok: bool)
      requires Valid() && (reply.Answered? ==> n < |remote.pulls| && !remote.pulls[n].open)
      modifies this`remote, this`script, this`operations, this`history,
               this`number, this`stateClosed, this`pullRequestClosed
      ensures Valid() && Reached() >= old(Reached())
      ensures quiet ==> remote == old(remote)
      ensures if ok then pullRequestClosed && stateClosed && number == Some(n)
              else pullRequestClosed == old(pullRequestClosed) && stateClosed == old(stateClosed) && number == old(number)
      ensures ok && old(Reached()) == 3 ==> Reached() >= 4
      ensures ok && quiet ==> n < |remote.pulls| && !remote.pulls[n].open
      ensures old(Smooth()) ==> Smooth()
      ensures reply == Answered(true) && old(remote).pulls[n].kind.Mine? ==> ok
    {
      hide Valid, Smooth, Progress;
      var reconciled := reply != Answered(true) || !remote.pulls[n].kind.Mine?;
      var shown: Option<PullRequest>;
      if reconciled {
        shown := ReadPull(n);
      } else {
        Saw(SawPull(n, remote.pulls[n]));
        shown := Some(remote.pulls[n]);
      }
      if shown.None? || !shown.value.kind.Mine? || shown.value.open {
        return false;
      }
      pullRequestClosed, stateClosed, number := true, true, Some(n);
      Note(PullClosed(n, reconciled));
      ok := true;
    }

    /** closePullRequest: a generation check, the close, and a read if the answer is uncertain. */
    method ClosePullRequest(n: nat) returns (ok: bool)
      requires Valid()
      modifies this`remote, this`script, this`operations, this`history, this`sent, this`flags,
               this`number, this`stateClosed, this`pullRequestClosed
      ensures Valid() && Reached() >= old(Reached()) && flags == old(flags)
      ensures quiet ==> remote.ref == old(remote).ref && ClosedAt(old(remote).pulls, remote.pulls, n)
      ensures if ok then pullRequestClosed && stateClosed && number == Some(n)
              else pullRequestClosed == old(pullRequestClosed) && stateClosed == old(stateClosed) && number == old(number)
      ensures ok && old(Reached()) == 3 ==> Reached() >= 4
      ensures ok && quiet ==> n < |remote.pulls| && !remote.pulls[n].open
      ensures old(Smooth()) ==> Smooth()
      ensures (old(Smooth()) && quiet && n < |old(remote).pulls| && old(remote).pulls[n].kind.Mine? && old(remote).pulls[n].open) ==> ok
    {
      hide Valid, Smooth, Progress, Apply, Consistent;
      var current := ReadPull(n);
      if current.None? || !current.value.kind.Mine? || !current.value.open {
        return false;
      }
      var reply := RunAuthorizedRemoteMutation(ClosePull(n));
      if quiet {
        ClosesOne(old(remote), remote, n, reply);
      }
      if reply.NotAttempted? {
        return false;
      }
      ok := ConfirmClosed(n, reply);
    }

    method CloseDuringCleanup(n: nat)
      requires Valid()
      modifies this`remote, this`script, this`operations, this`history, this`sent, this`flags,
               this`number, this`stateClosed, this`pullRequestClosed, this`violations
      ensures Valid() && Reached() >= old(Reached()) && flags == old(flags) && violations >= old(violations)
      ensures quiet ==> remote.ref == old(remote).ref && ClosedAt(old(remote).pulls, remote.pulls, n)
      ensures (number == old(number) && pullRequestClosed == old(pullRequestClosed)) || (number == Some(n) && pullRequestClosed)
      ensures old(Told(3)) ==> Told(3)
      ensures old(Smooth()) ==> Smooth()
      ensures (old(Smooth()) && quiet && n < |old(remote).pulls| && old(remote).pulls[n].kind.Mine? && old(remote).pulls[n].open) ==>
                !remote.pulls[n].open && pullRequestClosed && number == Some(n) && violations == old(violations)
    {
      hide Valid, Smooth, Reached;
      var ok := ClosePullRequest(n);
      if !ok {
        violations := violations + 1;
        Note(PullCloseFailed(n));
      }
    }

    /** At least `k` milestones have passed, and a fourth if a close was confirmed. */
    ghost predicate Told(k: nat)
      reads this`history, this`pullRequestClosed, this`stateClosed
    {
      Reached() >= k && stateClosed == pullRequestClosed && (pullRequestClosed && k == 3 ==> Reached() >= 4)
    }

    /** Every listed pull request of this generation that is still open gets closed. */
    method CloseDiscovered(listing: seq<PullRequest>)
      requires Valid() && (quiet ==> listing == remote.pulls)
      modifies this`remote, this`script, this`operations, this`history, this`sent, this`flags,
               this`number, this`stateClosed, this`pullRequestClosed, this`violations
      ensures Valid() && Reached() >= old(Reached()) && flags == old(flags) && violations >= old(violations)
      ensures quiet ==> remote.ref == old(remote).ref && OnlyCloses(old(remote).pulls, remote.pulls)
      ensures old(Told(3)) ==> Told(3)
      ensures old(pullRequestClosed) ==> pullRequestClosed
      ensures old(Smooth()) ==> Smooth()
      ensures old(Smooth()) && quiet ==> violations == old(violations)
      ensures (old(Smooth()) && quiet && (old(pullRequestClosed) && old(number).Some? && old(number).value < |listing| ==>
                                            !listing[old(number).value].open)) ==> NoneOpen(remote.pulls)
    {
      hide Valid, Smooth, Reached, Told;
      var i := 0;
      while i < |listing|
        invariant 0 <= i <= |listing|
        invariant Valid() && Reached() >= old(Reached()) && flags == old(flags) && violations >= old(violations)
        invariant quiet ==> remote.ref == old(remote).ref && OnlyCloses(old(remote).pulls, remote.pulls)
        invariant old(Told(3)) ==> Told(3)
        invariant old(pullRequestClosed) ==> pullRequestClosed
        invariant old(Smooth()) ==> Smooth()
        invariant old(Smooth()) && quiet ==> violations == old(violations)
        invariant quiet ==> forall j :: i <= j < |listing| ==> remote.pulls[j] == listing[j]
        invariant (number == old(number) && pullRequestClosed == old(pullRequestClosed))
                  || (pullRequestClosed && number.Some? && number.value < i)
        invariant (old(Smooth()) && quiet && (old(pullRequestClosed) && old(number).Some? && old(number).value < |listing| ==>
                                               !listing[old(number).value].open)) ==>
                    forall j :: 0 <= j < i && remote.pulls[j].kind.Mine? ==> !remote.pulls[j].open
      {
        var pull := listing[i];
        if pull.open && !pull.kind.Elsewhere? && !(pullRequestClosed && number == Some(i)) {
          if pull.kind.Lookalike? {
            Note(SkippedForeign(i));
          } else {
            if pull.head != payload {
              Note(HeadChanged(i));
            }
            CloseDuringCleanup(i);
          }
        }
        i := i + 1;
      }
    }

    /** First the known pull request, then whatever discovery lists. */
    method CleanupPulls()
      requires Valid() && !pullRequestClosed && !stateClosed
      requires number.Some? ==> flags.pullCreate
      modifies this`remote, this`script, this`operations, this`history, this`sent, this`flags,
               this`number, this`stateClosed, this`pullRequestClosed, this`violations
      ensures Valid() && Reached() >= old(Reached()) && flags == old(flags) && violations >= old(violations)
      ensures quiet ==> remote.ref == old(remote).ref && OnlyCloses(old(remote).pulls, remote.pulls)
      ensures !(flags.pullCreate && payloadKnown) ==> remote == old(remote)
      ensures old(Reached()) >= 3 ==> Told(3)
      ensures old(Smooth()) ==> Smooth()
      ensures (old(Smooth()) && quiet && flags.pullCreate && payloadKnown && (old(number).Some? ==>
                 old(number).value < |old(remote).pulls| && old(remote).pulls[old(number).value].kind.Mine?
                 && old(remote).pulls[old(number).value].open)) ==>
                NoneOpen(remote.pulls) && violations == old(violations) && (old(number).Some? ==> pullRequestClosed)
    {
      hide Valid, Smooth, Reached;
      if !flags.pullCreate || !payloadKnown {
        return;
      }
      if number.Some? {
        CloseDuringCleanup(number.value);
      }
      var listed := Call();
      if !listed.Good? {
        violations := violations + 1;
        Note(DiscoveryFailed);
        return;
      }
      Note(Discovered(|remote.pulls|));
      CloseDiscovered(remote.pulls);
    }

    /** The second read and the compare-and-swap deletion; `decided` when neither is needed. */
    method TryDelete(owned: Oid) returns (decided: bool)
      requires Valid() && (owned == anchor || owned == payload)
      modifies this`remote, this`script, this`operations, this`history, this`sent, this`flags,
               this`branchDeleted, this`violations
      ensures Valid() && Reached() >= old(Reached()) && violations >= old(violations) && flags == old(flags)
      ensures quiet ==> remote.pulls == old(remote).pulls
      ensures branchDeleted && !old(branchDeleted) ==> decided && (old(Reached()) == 4 ==> Reached() == 5)
      ensures old(Smooth()) ==> Smooth()
      ensures (old(Smooth()) && quiet && old(remote).ref == Some(owned)) ==>
                !decided && remote.ref.None? && violations == old(violations)
    {
      hide Valid, Smooth, Progress;
      var before := ReadRef();
      if before == Some(None) {
        branchDeleted := true;
        Note(BranchAbsent);
        return true;
      }
      if before.Some? && before.value.value != owned {
        violations := violations + 1;
        Note(BranchForeign(before.value.value));
        return true;
      }
      var failed := before.None?;
      if !failed {
        var reply := RunAuthorizedRemoteMutation(DeleteBranch(owned));
        failed := reply != Answered(true);
      }
      violations := if failed then violations + 1 else violations;
      Note(if failed then DeleteFailed else DeleteCommitted);
      decided := false;
    }

    /** The deletion, then the read that decides whether the branch is gone. */
    method DeleteOwned(owned: Oid)
      requires Valid() && (owned == anchor || owned == payload)
      modifies this`remote, this`script, this`operations, this`history, this`sent, this`flags,
               this`branchDeleted, this`violations
      ensures Valid() && Reached() >= old(Reached()) && violations >= old(violations) && flags == old(flags)
      ensures quiet ==> remote.pulls == old(remote).pulls
      ensures branchDeleted && !old(branchDeleted) && old(Reached()) == 4 ==> Reached() == 5
      ensures (old(Smooth()) && quiet && old(remote).ref == Some(owned)) ==>
                remote.ref.None? && branchDeleted && violations == old(violations)
    {
      hide Valid, Smooth, Progress;
      var violationsBefore := violations;
      var decided := TryDelete(owned);
      if decided {
        return;
      }
      var after := ReadRef();
      if after == Some(None) {
        branchDeleted := true;
        Note(DeleteVerified);
      } else {
        if after != Some(Some(owned)) || violations == violationsBefore {
          violations := violations + 1;
        }
        Note(DeleteUnverified);
      }
    }

    /** Only a branch found at the anchor, or at the payload once its update was attempted, is
        deleted, by compare-and-swap from that value. */
    method CleanupBranch()
      requires Valid()
      modifies this`remote, this`script, this`operations, this`history, this`sent, this`flags,
               this`branchDeleted, this`violations
      ensures Valid() && Reached() >= old(Reached()) && violations >= old(violations)
      ensures flags == old(flags)
      ensures quiet ==> remote.pulls == old(remote).pulls
      ensures !(flags.branchCreate && anchorKnown) ==> remote == old(remote) && branchDeleted == old(branchDeleted)
      ensures branchDeleted && !old(branchDeleted) && old(Reached()) == 4 ==> Reached() == 5
      ensures (old(Smooth()) && quiet && flags.branchCreate && anchorKnown
               && (old(remote).ref in {None, Some(anchor)}
                   || (flags.payloadTransition && payloadKnown && old(remote).ref == Some(payload)))) ==>
                remote.ref.None? && branchDeleted && violations == old(violations)
    {
      hide Valid, Smooth, Progress;
      if !flags.branchCreate || !anchorKnown {
        return;
      }
      var refs := ReadRef();
      if refs.None? {
        violations := violations + 1;
        Note(BranchUnreadable);
        return;
      }
      if refs.value.None? {
        branchDeleted := true;
        Note(BranchAbsent);
        return;
      }
      var owned := refs.value.value;
      if !(flags.payloadTransition && payloadKnown && owned == payload) && owned != anchor {
        violations := violations + 1;
        Note(BranchForeign(owned));
        return;
      }
      Note(BranchOwned(owned));
      DeleteOwned(owned);
    }

    // ---- The whole rehearsal ----

    /** The rehearsal from established authority to the verdict; `cleanup` scripts the calls of
        the clean-up, which always runs. A green verdict tells the whole story. With no other
        actor and a clean-up without faults, nothing of the rehearsal is left, whatever happened
        in the live part; with no fault at all on a free branch, the verdict is green. */
    method Rehearse(cleanup: seq<Outcome>) returns (ok: bool)
      requires Fresh()
      modifies this
      ensures Valid()
      ensures ok ==> Reached() == 5
      ensures (quiet && forall k :: 0 <= k < |cleanup| ==> cleanup[k].Good?) ==>
                && remote.ref == (if flags.branchCreate then None else old(remote).ref)
                && (if flags.pullCreate then NoneOpen(remote.pulls) else remote.pulls == old(remote).pulls)
      ensures quiet ==> |old(remote).pulls| <= |remote.pulls| && OnlyCloses(old(remote).pulls, remote.pulls[..|old(remote).pulls|])
      ensures (quiet && old(Smooth()) && old(remote).ref.None? && forall k :: 0 <= k < |cleanup| ==> cleanup[k].Good?) ==> ok
    {
      hide Valid, Reached;
      var live := Live();
      if !live {
        violations := violations + 1;
      }
      script := cleanup;
      CleanupPulls();
      CleanupBranch();
      ok := pullRequestClosed && stateClosed && branchDeleted && violations == 0;
    }
  }
}