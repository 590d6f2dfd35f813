/**
 * The whole server as a state machine. Deciders and pollers interleave statement by statement; a `start`, an
 * `answer` or a resumption is one orchestrator call and one step.
 */
module Protocol {
  import opened Workflow
  import Engine
  import opened Tables
  import opened Orchestrator

  /** A row of the expiry query's snapshot. */
  datatype Listed = Listed(id: Id, row: Approval)

  /** A process, named after the statement it is about to execute. */
  datatype Proc =
    | DeciderReading(approval: Id, user: Id, decision: ApprovalDecision, comment: Option<string>)
    | DeciderFlipping(approval: Id, decision: ApprovalDecision, comment: Option<string>)
    | DeciderRereading(approval: Id, decision: ApprovalDecision)
    | DeciderResuming(approval: Id, row: Approval, decision: ApprovalDecision)
    | PollerListing
    | PollerFlipping(queue: seq<Listed>)
    | PollerResuming(approval: Id, row: Approval, queue: seq<Listed>)
    | Ended

  datatype Resumption = Resumption(approval: Id, decision: ApprovalDecision)

  datatype World = World(tables: Tables, procs: map<nat, Proc>, clock: Time, resumed: seq<Resumption>)

  datatype Action =
    | Define(definitionId: Id, graph: Graph)
    | EditCatalog(itemId: Id, item: CatalogItem)
    | StartRequest(itemId: Id, requester: Id, env: Env)
    | AnswerQuestion(instanceId: Id, requester: Id, key: string, value: Json, env: Env)
    | Spawn(pid: nat, proc: Proc)
    | Proceed(pid: nat, listing: seq<Id>, env: Env)
    | Tick(now: Time)

  const EXPIRY_NOTE := "auto-expired: approval timeout reached"

  function StatusFor(decision: ApprovalDecision): ApprovalStatus {
    if decision.Approve? then ApprovalStatus.Approved else ApprovalStatus.Rejected
  }

  /** The decision a resumption must carry for a stored status. */
  predicate Matches(status: ApprovalStatus, decision: ApprovalDecision) {
    match decision
    case Approve => status.Approved?
    case Reject => status.Rejected? || status.Expired?
  }

  function Snapshot(t: Tables, listing: seq<Id>): seq<Listed>
    requires forall id :: id in listing ==> id in t.approvals
  {
    seq(|listing|, i requires 0 <= i < |listing| => Listed(listing[i], t.approvals[listing[i]]))
  }

  ghost predicate Drawn(w: World, env: Env) {
    env.now == w.clock && env.approvalId !in w.tables.approvals
  }

  ghost predicate Enabled(w: World, action: Action) {
    match action
    case Define(id, _) => id !in w.tables.definitions
    case EditCatalog(_, _) => true
    case StartRequest(_, _, env) => Drawn(w, env) && env.instanceId !in w.tables.instances
    case AnswerQuestion(_, _, _, _, env) => Drawn(w, env)
    case Spawn(pid, proc) => pid !in w.procs && (proc.DeciderReading? || proc.PollerListing?)
    case Proceed(pid, listing, env) =>
      && pid in w.procs && Drawn(w, env)
      && (w.procs[pid].PollerListing? ==> IsListing(w.tables, w.clock, listing))
    case Tick(now) => w.clock <= now
  }

  function Resumes(w: World, pid: nat, approval: Id, row: Approval, decision: ApprovalDecision, proc: Proc, env: Env): World {
    World(ResumeAfterApproval(w.tables, row.instanceId, row.stepId, decision, env).tables,
          w.procs[pid := proc], w.clock, w.resumed + [Resumption(approval, decision)])
  }

  function Flip(w: World, pid: nat, approval: Id, status: ApprovalStatus, comment: Option<string>, proc: Proc): World {
    w.(tables := FlipApproval(w.tables, approval, status, comment, w.clock), procs := w.procs[pid := proc])
  }

  ghost function Advanced(w: World, pid: nat, listing: seq<Id>, env: Env): World
    requires Enabled(w, Proceed(pid, listing, env))
  {
    var t := w.tables;
    match w.procs[pid]
    case DeciderReading(a, user, decision, comment) =>
      if a in t.approvals && t.approvals[a].approver == user && t.approvals[a].status.Pending?
      then w.(procs := w.procs[pid := DeciderFlipping(a, decision, comment)])
      else w.(procs := w.procs[pid := Ended])
    case DeciderFlipping(a, decision, comment) =>
      if IsPending(t, a)
      then Flip(w, pid, a, StatusFor(decision), comment, DeciderRereading(a, decision))
      else w.(procs := w.procs[pid := Ended])
    case DeciderRereading(a, decision) =>
      if a in t.approvals
      then w.(procs := w.procs[pid := DeciderResuming(a, t.approvals[a], decision)])
      else w.(procs := w.procs[pid := Ended])
    case DeciderResuming(a, row, decision) =>
      Resumes(w, pid, a, row, decision, Ended, env)
    case PollerListing =>
      w.(procs := w.procs[pid := PollerFlipping(Snapshot(t, listing))])
    case PollerFlipping(queue) =>
      if queue == [] then w.(procs := w.procs[pid := Ended])
      else if IsPending(t, queue[0].id)
      then Flip(w, pid, queue[0].id, ApprovalStatus.Expired, Some(EXPIRY_NOTE),
                PollerResuming(queue[0].id, queue[0].row, queue[1..]))
      else w.(procs := w.procs[pid := PollerFlipping(queue[1..])])
    case PollerResuming(a, row, queue) =>
      Resumes(w, pid, a, row, Reject, PollerFlipping(queue), env)
    case Ended => w
  }

  ghost function Next(w: World, action: Action): World
    requires Enabled(w, action)
  {
    match action
    case Define(id, graph) =>
      w.(tables := w.tables.(definitions := w.tables.definitions[id := graph]))
    case EditCatalog(itemId, item) =>
      w.(tables := w.tables.(items := w.tables.items[itemId := item]))
    case StartRequest(itemId, requester, env) =>
      w.(tables := StartInstance(w.tables, itemId, requester, env).tables)
    case AnswerQuestion(id, requester, key, value, env) =>
      w.(tables := SubmitAnswer(w.tables, id, requester, key, value, env).tables)
    case Spawn(pid, proc) => w.(procs := w.procs[pid := proc])
    case Proceed(pid, listing, env) => Advanced(w, pid, listing, env)
    case Tick(now) => w.(clock := now)
  }

  ghost predicate Initial(w: World) {
    && w.tables.instances == map[] && w.tables.approvals == map[] && w.tables.tickets == []
    && w.procs == map[] && w.resumed == []
  }

  ghost predicate Legal(w: World, actions: seq<Action>)
    decreases |actions|
  {
    actions == [] || (Enabled(w, actions[0]) && Legal(Next(w, actions[0]), actions[1..]))
  }

  ghost function Run(w: World, actions: seq<Action>): World
    requires Legal(w, actions)
    decreases |actions|
  {
    if actions == [] then w else Run(Next(w, actions[0]), actions[1..])
  }

  /** The approval a process has flipped and must still resume. */
  function Held(proc: Proc): Option<Id> {
    match proc
    case DeciderRereading(a, _) => Some(a)
    case DeciderResuming(a, _, _) => Some(a)
    case PollerResuming(a, _, _) => Some(a)
    case _ => None
  }

  function HeldDecision(proc: Proc): ApprovalDecision
    requires Held(proc).Some?
  {
    if proc.PollerResuming? then Reject else proc.decision
  }

  /** About to resume an instance. */
  predicate Resuming(proc: Proc) {
    proc.DeciderResuming? || proc.PollerResuming?
  }

  function AfterResuming(proc: Proc): Proc
    requires Resuming(proc)
  {
    if proc.DeciderResuming? then Ended else PollerFlipping(proc.queue)
  }

  datatype Flipping = Flipping(approval: Id, status: ApprovalStatus, comment: Option<string>)

  /** The compare-and-set a process is about to attempt. */
  function Flips(proc: Proc): Option<Flipping> {
    match proc
    case DeciderFlipping(a, decision, comment) => Some(Flipping(a, StatusFor(decision), comment))
    case PollerFlipping(queue) =>
      if queue == [] then None else Some(Flipping(queue[0].id, ApprovalStatus.Expired, Some(EXPIRY_NOTE)))
    case _ => None
  }

  function Queue(proc: Proc): seq<Listed> {
    if proc.PollerFlipping? || proc.PollerResuming? then proc.queue else []
  }

  predicate SameOrigin(a: Approval, b: Approval) {
    a.instanceId == b.instanceId && a.stepId == b.stepId && a.approver == b.approver && a.expiresAt == b.expiresAt
  }

  ghost predicate WasResumed(w: World, a: Id) {
    exists k :: 0 <= k < |w.resumed| && w.resumed[k].approval == a
  }

  /** Pending, or decided with its resumption still to come. */
  ghost predicate Open(w: World, a: Id) {
    a in w.tables.approvals && !WasResumed(w, a)
  }

  ghost predicate References(t: Tables) {
    && (forall a :: a in t.approvals ==> t.approvals[a].instanceId in t.instances)
    && (forall i :: i in t.instances ==> t.instances[i].definitionId in t.definitions)
  }

  ghost predicate Timely(a: Approval, clock: Time) {
    && (!a.status.Pending? ==> a.decidedAt.Some? && a.decidedAt.value <= clock)
    && (a.status.Expired? ==> a.expiresAt.Some? && a.decidedAt.Some? && a.expiresAt.value <= a.decidedAt.value)
  }

  ghost predicate Timed(w: World) {
    forall a :: a in w.tables.approvals ==> Timely(w.tables.approvals[a], w.clock)
  }

  /** A listed row is still what the table says about everything but the decision, and its deadline has passed. */
  ghost predicate ListedRight(w: World, l: Listed) {
    && l.id in w.tables.approvals && SameOrigin(l.row, w.tables.approvals[l.id])
    && l.row.expiresAt.Some? && l.row.expiresAt.value <= w.clock
  }

  ghost predicate Queued(w: World) {
    forall p, k :: p in w.procs && 0 <= k < |Queue(w.procs[p])| ==> ListedRight(w, Queue(w.procs[p])[k])
  }

  /** A holder's approval is decided as the holder says, unresumed, and the holder's copy of the row is faithful. */
  ghost predicate HolderRight(w: World, proc: Proc)
    requires Held(proc).Some?
  {
    var a := Held(proc).value;
    && Open(w, a)
    && Matches(w.tables.approvals[a].status, HeldDecision(proc))
    && (!proc.DeciderRereading? ==> SameOrigin(proc.row, w.tables.approvals[a]))
  }

  ghost predicate HoldersRight(w: World) {
    forall p :: p in w.procs && Held(w.procs[p]).Some? ==> HolderRight(w, w.procs[p])
  }

  ghost predicate HoldersUnique(w: World) {
    forall p, q :: p in w.procs && q in w.procs && Held(w.procs[p]).Some? && Held(w.procs[p]) == Held(w.procs[q]) ==> p == q
  }

  ghost predicate IsHeld(w: World, a: Id) {
    exists p :: p in w.procs && Held(w.procs[p]) == Some(a)
  }

  /** No decision is lost: an unresumed decided approval has a process about to resume it. */
  ghost predicate DecidedHeld(w: World) {
    forall a :: Open(w, a) && !w.tables.approvals[a].status.Pending? ==> IsHeld(w, a)
  }

  ghost predicate LogRight(w: World) {
    && (forall k :: 0 <= k < |w.resumed| ==>
          w.resumed[k].approval in w.tables.approvals
          && Matches(w.tables.approvals[w.resumed[k].approval].status, w.resumed[k].decision))
    && (forall j, k :: 0 <= j < k < |w.resumed| ==> w.resumed[j].approval != w.resumed[k].approval)
  }

  ghost predicate OpenPlaced(w: World, a: Id)
    requires Open(w, a) && References(w.tables)
  {
    var ap := w.tables.approvals[a];
    var row := w.tables.instances[ap.instanceId];
    row.status == InstanceStatus.AwaitingApproval && row.stepId == ap.stepId
  }

  predicate SameInstance(t: Tables, a: Id, b: Id)
    requires a in t.approvals && b in t.approvals
  {
    t.approvals[a].instanceId == t.approvals[b].instanceId
  }

  ghost predicate OpenRight(w: World)
    requires References(w.tables)
  {
    && (forall a :: Open(w, a) ==> OpenPlaced(w, a))
    && (forall a, b :: Open(w, a) && Open(w, b) && SameInstance(w.tables, a, b) ==> a == b)
  }

  ghost predicate Inv(w: World) {
    && References(w.tables)
    && Timed(w)
    && Queued(w)
    && HoldersRight(w)
    && HoldersUnique(w)
    && DecidedHeld(w)
    && LogRight(w)
    && OpenRight(w)
  }
}

/** Every step keeps the protocol's invariant. */
module ProtocolSteps {
  import opened Workflow
  import Engine
  import opened Tables
  import opened Orchestrator
  import opened Calls
  import opened Protocol

  /** The tables after a process moves: resumed, flipped, or as they were. */
  lemma ProceedTables(w: World, pid: nat, listing: seq<Id>, env: Env)
    requires Enabled(w, Proceed(pid, listing, env))
    ensures Advanced(w, pid, listing, env).tables ==
            (var proc := w.procs[pid];
             if Resuming(proc) then
               ResumeAfterApproval(w.tables, proc.row.instanceId, proc.row.stepId, HeldDecision(proc), env).tables
             else if Flips(proc).Some? then
               var f := Flips(proc).value; FlipApproval(w.tables, f.approval, f.status, f.comment, w.clock)
             else w.tables)
  {
  }

  lemma InitialInv(w: World)
    requires Initial(w)
    ensures Inv(w)
  {
  }

  lemma SpawnKeeps(w: World, pid: nat, proc: Proc)
    requires Inv(w) && pid !in w.procs && (proc.DeciderReading? || proc.PollerListing?)
    ensures Inv(w.(procs := w.procs[pid := proc]))
  {
    MoveKeeps(w, pid, proc);
  }

  /** A process that holds nothing moves to a state that holds nothing, with rightly listed rows only. */
  lemma MoveKeeps(w: World, pid: nat, proc: Proc)
    requires Inv(w) && (pid in w.procs ==> Held(w.procs[pid]).None?) && Held(proc).None?
    requires forall k :: 0 <= k < |Queue(proc)| ==> ListedRight(w, Queue(proc)[k])
    ensures Inv(w.(procs := w.procs[pid := proc]))
  {
    var w' := w.(procs := w.procs[pid := proc]);
    assert forall a :: Open(w', a) <==> Open(w, a);
    forall a | Open(w', a) && !w'.tables.approvals[a].status.Pending? ensures IsHeld(w', a) {
      var p :| p in w.procs && Held(w.procs[p]) == Some(a);
      assert p in w'.procs && Held(w'.procs[p]) == Some(a);
    }
  }

  lemma RereadKeeps(w: World, pid: nat, a: Id, decision: ApprovalDecision)
    requires Inv(w) && pid in w.procs && w.procs[pid] == DeciderRereading(a, decision) && a in w.tables.approvals
    ensures Inv(w.(procs := w.procs[pid := DeciderResuming(a, w.tables.approvals[a], decision)]))
  {
    var w' := w.(procs := w.procs[pid := DeciderResuming(a, w.tables.approvals[a], decision)]);
    assert forall b :: Open(w', b) <==> Open(w, b);
    assert HolderRight(w, w.procs[pid]);
    forall b | Open(w', b) && !w'.tables.approvals[b].status.Pending? ensures IsHeld(w', b) {
      var p :| p in w.procs && Held(w.procs[p]) == Some(b);
      assert p in w'.procs && Held(w'.procs[p]) == Some(b);
    }
    forall p, q | p in w'.procs && q in w'.procs && Held(w'.procs[p]).Some? && Held(w'.procs[p]) == Held(w'.procs[q])
      ensures p == q
    {
      assert Held(w'.procs[p]) == Held(w.procs[p]) && Held(w'.procs[q]) == Held(w.procs[q]);
    }
  }

  lemma TickKeeps(w: World, now: Time)
    requires Inv(w) && w.clock <= now
    ensures Inv(w.(clock := now))
  {
    var w' := w.(clock := now);
    assert forall a :: Open(w', a) <==> Open(w, a);
    assert DecidedHeld(w') by {
      forall a | Open(w', a) && !w'.tables.approvals[a].status.Pending? ensures IsHeld(w', a) {
        assert IsHeld(w, a);
      }
    }
    assert HoldersRight(w') by {
      forall p | p in w'.procs && Held(w'.procs[p]).Some? ensures HolderRight(w', w'.procs[p]) {
        assert HolderRight(w, w.procs[p]);
      }
    }
  }

  /** Editing the catalog or adding a definition touches nothing the invariant reads. */
  lemma AdminKeeps(w: World, t': Tables)
    requires Inv(w)
    requires t'.instances == w.tables.instances && t'.approvals == w.tables.approvals
    requires w.tables.definitions.Keys <= t'.definitions.Keys
    ensures Inv(w.(tables := t'))
  {
    var w' := w.(tables := t');
    assert forall a :: Open(w', a) <==> Open(w, a);
    assert DecidedHeld(w') by {
      forall a | Open(w', a) && !w'.tables.approvals[a].status.Pending? ensures IsHeld(w', a) {
        assert IsHeld(w, a);
      }
    }
    assert HoldersRight(w') by {
      forall p | p in w'.procs && Held(w'.procs[p]).Some? ensures HolderRight(w', w'.procs[p]) {
        assert HolderRight(w, w.procs[p]);
      }
    }
  }

  /** Nobody holds or has resumed an approval that is still pending. */
  lemma PendingUntouched(w: World, a: Id)
    requires HoldersRight(w) && LogRight(w) && IsPending(w.tables, a)
    ensures !IsHeld(w, a) && !WasResumed(w, a)
  {
    forall p | p in w.procs && Held(w.procs[p]).Some? ensures Held(w.procs[p]).value != a {
      assert HolderRight(w, w.procs[p]);
    }
    forall k | 0 <= k < |w.resumed| ensures w.resumed[k].approval != a {
      assert Matches(w.tables.approvals[w.resumed[k].approval].status, w.resumed[k].decision);
    }
  }

  /** What a process needs in order to hold `a` right after flipping it to `status`. */
  ghost predicate MayFlip(w: World, pid: nat, a: Id, status: ApprovalStatus, proc: Proc) {
    && pid in w.procs && Held(w.procs[pid]).None? && IsPending(w.tables, a)
    && Held(proc) == Some(a) && Matches(status, HeldDecision(proc))
    && (!proc.DeciderRereading? ==> SameOrigin(proc.row, w.tables.approvals[a]))
    && (forall k :: 0 <= k < |Queue(proc)| ==> ListedRight(w, Queue(proc)[k]))
    && (status.Expired? ==> w.tables.approvals[a].expiresAt.Some? && w.tables.approvals[a].expiresAt.value <= w.clock)
  }

  /** The winning compare-and-set: the flipper becomes the approval's one holder. */
  lemma FlipKeeps(w: World, pid: nat, a: Id, status: ApprovalStatus, comment: Option<string>, proc: Proc)
    requires Inv(w) && MayFlip(w, pid, a, status, proc)
    ensures Inv(Flip(w, pid, a, status, comment, proc))
  {
    FlipKeepsHolders(w, pid, a, status, comment, proc);
    FlipKeepsLists(w, pid, a, status, comment, proc);
    FlipKeepsOpen(w, pid, a, status, comment, proc);
  }

  lemma FlipKeepsOpen(w: World, pid: nat, a: Id, status: ApprovalStatus, comment: Option<string>, proc: Proc)
    requires Inv(w) && MayFlip(w, pid, a, status, proc)
    ensures var w' := Flip(w, pid, a, status, comment, proc); References(w'.tables) && OpenRight(w')
  {
    var w' := Flip(w, pid, a, status, comment, proc);
    forall b | b in w.tables.approvals ensures SameOrigin(w'.tables.approvals[b], w.tables.approvals[b]) {
    }
    forall b | Open(w', b) ensures OpenPlaced(w', b) {
      assert Open(w, b) && OpenPlaced(w, b);
    }
    forall b, c | Open(w', b) && Open(w', c) && SameInstance(w'.tables, b, c) ensures b == c {
      assert Open(w, b) && Open(w, c) && SameInstance(w.tables, b, c);
    }
  }

  lemma FlipKeepsLists(w: World, pid: nat, a: Id, status: ApprovalStatus, comment: Option<string>, proc: Proc)
    requires Inv(w) && MayFlip(w, pid, a, status, proc)
    ensures var w' := Flip(w, pid, a, status, comment, proc); Timed(w') && Queued(w') && LogRight(w')
  {
    var w' := Flip(w, pid, a, status, comment, proc);
    PendingUntouched(w, a);
    forall p, k | p in w'.procs && 0 <= k < |Queue(w'.procs[p])| ensures ListedRight(w', Queue(w'.procs[p])[k]) {
      assert ListedRight(w, Queue(w'.procs[p])[k]);
    }
  }

  lemma FlipKeepsHolders(w: World, pid: nat, a: Id, status: ApprovalStatus, comment: Option<string>, proc: Proc)
    requires Inv(w) && MayFlip(w, pid, a, status, proc)
    ensures var w' := Flip(w, pid, a, status, comment, proc); HoldersRight(w') && HoldersUnique(w') && DecidedHeld(w')
  {
    var w' := Flip(w, pid, a, status, comment, proc);
    PendingUntouched(w, a);
    forall p | p in w'.procs && Held(w'.procs[p]).Some? ensures HolderRight(w', w'.procs[p]) {
      if p != pid {
        assert HolderRight(w, w.procs[p]);
      }
    }
    forall b | Open(w', b) && !w'.tables.approvals[b].status.Pending? ensures IsHeld(w', b) {
      if b == a {
        assert Held(w'.procs[pid]) == Some(a);
      } else {
        assert Open(w, b);
        var p :| p in w.procs && Held(w.procs[p]) == Some(b);
        assert p in w'.procs && Held(w'.procs[p]) == Some(b);
      }
    }
  }

  /** A call on instance `id` that closes every open approval of `id` keeps the open ones right. */
  ghost predicate CallOn(w: World, w': World, id: Id, env: Env) {
    && References(w.tables) && References(w'.tables)
    && id in w'.tables.instances
    && (forall j :: j in w.tables.instances && j != id ==> j in w'.tables.instances && w'.tables.instances[j] == w.tables.instances[j])
    && env.approvalId !in w.tables.approvals
    && ApprovalOpened(w.tables, w'.tables, id, env)
  }

  lemma CallKeepsOpen(w: World, w': World, id: Id, env: Env)
    requires Inv(w) && CallOn(w, w', id, env)
    requires forall a :: Open(w', a) && a in w.tables.approvals ==> Open(w, a) && w.tables.approvals[a].instanceId != id
    ensures OpenRight(w')
  {
    var t, t' := w.tables, w'.tables;
    forall a | Open(w', a) ensures OpenPlaced(w', a) {
      if a in t.approvals {
        assert OpenPlaced(w, a);
        assert t'.approvals[a] == t.approvals[a];
      }
    }
    forall a, b | Open(w', a) && Open(w', b) && SameInstance(t', a, b) ensures a == b {
      if a in t.approvals && b in t.approvals {
        assert SameInstance(t, a, b);
      }
    }
  }

  /** Rows of earlier approvals are never touched by a call, so everything said about them stays. */
  lemma CallKeepsRows(w: World, w': World, id: Id, env: Env)
    requires Inv(w) && CallOn(w, w', id, env) && w'.clock == w.clock
    requires forall p, k :: p in w'.procs && 0 <= k < |Queue(w'.procs[p])| ==> ListedRight(w, Queue(w'.procs[p])[k])
    requires |w.resumed| <= |w'.resumed| <= |w.resumed| + 1 && w'.resumed[..|w.resumed|] == w.resumed
    requires |w'.resumed| > |w.resumed| ==>
               var r := w'.resumed[|w.resumed|];
               Open(w, r.approval) && Matches(w.tables.approvals[r.approval].status, r.decision)
    ensures Timed(w') && Queued(w') && LogRight(w')
  {
    var t, t' := w.tables, w'.tables;
    assert forall a :: a in t.approvals ==> a in t'.approvals && t'.approvals[a] == t.approvals[a];
    forall p, k | p in w'.procs && 0 <= k < |Queue(w'.procs[p])| ensures ListedRight(w', Queue(w'.procs[p])[k]) {
      assert ListedRight(w, Queue(w'.procs[p])[k]);
    }
    assert forall k :: 0 <= k < |w.resumed| ==> w'.resumed[k] == w'.resumed[..|w.resumed|][k];
    forall j, k | 0 <= j < k < |w'.resumed| ensures w'.resumed[j].approval != w'.resumed[k].approval {
      if k == |w.resumed| {
        assert !WasResumed(w, w'.resumed[k].approval);
        assert w.resumed[j] == w'.resumed[j];
      }
    }
  }

  lemma SameResumed(w: World, w': World)
    requires w'.resumed == w.resumed
    ensures forall a :: WasResumed(w', a) <==> WasResumed(w, a)
  {
  }

  /** Starting or answering: no process moves and nothing is resumed. */
  lemma QuietCallKeeps(w: World, t': Tables, id: Id, env: Env)
    requires Inv(w) && CallOn(w, w.(tables := t'), id, env)
    requires forall a :: Open(w, a) ==> w.tables.approvals[a].instanceId != id
    ensures Inv(w.(tables := t'))
  {
    var w' := w.(tables := t');
    SameResumed(w, w');
    CallKeepsOpen(w, w', id, env);
    CallKeepsRows(w, w', id, env);
    assert HoldersRight(w') by {
      forall p | p in w'.procs && Held(w'.procs[p]).Some? ensures HolderRight(w', w'.procs[p]) {
        assert HolderRight(w, w.procs[p]);
      }
    }
    assert DecidedHeld(w') by {
      forall a | Open(w', a) && !w'.tables.approvals[a].status.Pending? ensures IsHeld(w', a) {
        assert Open(w, a);
        assert IsHeld(w, a);
      }
    }
  }

  lemma AnswerKeeps(w: World, id: Id, requester: Id, key: string, value: Json, env: Env)
    requires Inv(w) && Drawn(w, env)
    ensures Inv(w.(tables := SubmitAnswer(w.tables, id, requester, key, value, env).tables))
  {
    var a := SubmitAnswer(w.tables, id, requester, key, value, env);
    AnswerEffect(w.tables, id, requester, key, value, env);
    if a.tables == w.tables {
      assert w.(tables := a.tables) == w;
    } else {
      forall b | Open(w, b) ensures w.tables.approvals[b].instanceId != id {
        assert OpenPlaced(w, b);
      }
      QuietCallKeeps(w, a.tables, id, env);
    }
  }

  lemma StartKeeps(w: World, itemId: Id, requester: Id, env: Env)
    requires Inv(w) && Drawn(w, env) && env.instanceId !in w.tables.instances
    ensures Inv(w.(tables := StartInstance(w.tables, itemId, requester, env).tables))
  {
    var a := StartInstance(w.tables, itemId, requester, env);
    StartEffect(w.tables, itemId, requester, env);
    if a.tables == w.tables {
      assert w.(tables := a.tables) == w;
    } else {
      QuietCallKeeps(w, a.tables, env.instanceId, env);
    }
  }

  /** A process about to resume `a`, and the state it moves to. */
  ghost predicate MayResume(w: World, pid: nat, a: Id, row: Approval, decision: ApprovalDecision, proc: Proc) {
    && pid in w.procs && Held(w.procs[pid]) == Some(a) && HeldDecision(w.procs[pid]) == decision
    && !w.procs[pid].DeciderRereading? && w.procs[pid].row == row
    && Held(proc).None? && Queue(proc) == Queue(w.procs[pid])
  }

  lemma ResumeCall(w: World, pid: nat, a: Id, row: Approval, decision: ApprovalDecision, proc: Proc, env: Env)
    requires Inv(w) && Drawn(w, env) && MayResume(w, pid, a, row, decision, proc)
    ensures Open(w, a) && w.tables.approvals[a].instanceId == row.instanceId
    ensures Matches(w.tables.approvals[a].status, decision)
    ensures CallOn(w, Resumes(w, pid, a, row, decision, proc, env), row.instanceId, env)
  {
    assert HolderRight(w, w.procs[pid]);
    ResumeEffect(w.tables, row.instanceId, row.stepId, decision, env);
  }

  lemma ResumeLogs(w: World, pid: nat, a: Id, row: Approval, decision: ApprovalDecision, proc: Proc, env: Env)
    ensures forall b :: WasResumed(Resumes(w, pid, a, row, decision, proc, env), b) <==> WasResumed(w, b) || b == a
  {
    var w' := Resumes(w, pid, a, row, decision, proc, env);
    assert w'.resumed[|w.resumed|].approval == a;
    forall b | WasResumed(w, b) ensures WasResumed(w', b) {
      var k :| 0 <= k < |w.resumed| && w.resumed[k].approval == b;
      assert w'.resumed[k].approval == b;
    }
  }

  /** A holder resumes: its approval is closed, and any approval the call opens is the instance's only open one. */
  lemma ResumeKeeps(w: World, pid: nat, a: Id, row: Approval, decision: ApprovalDecision, proc: Proc, env: Env)
    requires Inv(w) && Drawn(w, env) && MayResume(w, pid, a, row, decision, proc)
    ensures Inv(Resumes(w, pid, a, row, decision, proc, env))
  {
    var w' := Resumes(w, pid, a, row, decision, proc, env);
    ResumeCall(w, pid, a, row, decision, proc, env);
    ResumeLogs(w, pid, a, row, decision, proc, env);
    ResumeKeepsOpen(w, w', a, row.instanceId, env);
    CallKeepsRows(w, w', row.instanceId, env);
    ResumeKeepsHolders(w, w', pid, a, env);
  }

  lemma ResumeKeepsOpen(w: World, w': World, a: Id, id: Id, env: Env)
    requires Inv(w) && CallOn(w, w', id, env) && Open(w, a) && w.tables.approvals[a].instanceId == id
    requires forall b :: WasResumed(w', b) <==> WasResumed(w, b) || b == a
    ensures OpenRight(w')
  {
    forall b | Open(w', b) && b in w.tables.approvals ensures Open(w, b) && w.tables.approvals[b].instanceId != id {
      assert w.tables.approvals[b].instanceId == id ==> SameInstance(w.tables, a, b);
    }
    CallKeepsOpen(w, w', id, env);
  }

  lemma ResumeKeepsHolders(w: World, w': World, pid: nat, a: Id, env: Env)
    requires Inv(w) && pid in w.procs && Held(w.procs[pid]) == Some(a)
    requires exists proc :: Held(proc).None? && w'.procs == w.procs[pid := proc]
    requires forall b :: WasResumed(w', b) <==> WasResumed(w, b) || b == a
    requires forall b :: b in w.tables.approvals ==> b in w'.tables.approvals && w'.tables.approvals[b] == w.tables.approvals[b]
    requires forall b :: b in w'.tables.approvals && b !in w.tables.approvals ==> w'.tables.approvals[b].status.Pending?
    ensures HoldersRight(w') && HoldersUnique(w') && DecidedHeld(w')
  {
    forall p | p in w'.procs && Held(w'.procs[p]).Some? ensures HolderRight(w', w'.procs[p]) {
      assert p != pid && HolderRight(w, w.procs[p]);
      assert Held(w.procs[p]) != Held(w.procs[pid]);
    }
    forall b | Open(w', b) && !w'.tables.approvals[b].status.Pending? ensures IsHeld(w', b) {
      assert Open(w, b);
      var p :| p in w.procs && Held(w.procs[p]) == Some(b);
      assert p in w'.procs && Held(w'.procs[p]) == Some(b);
    }
  }

  lemma DeciderKeeps(w: World, pid: nat, listing: seq<Id>, env: Env)
    requires Inv(w) && Enabled(w, Proceed(pid, listing, env))
    requires w.procs[pid].DeciderReading? || w.procs[pid].DeciderFlipping? || w.procs[pid].DeciderRereading?
    ensures Inv(Advanced(w, pid, listing, env))
  {
    var t := w.tables;
    match w.procs[pid]
    case DeciderReading(a, user, decision, comment) =>
      MoveKeeps(w, pid, DeciderFlipping(a, decision, comment));
      MoveKeeps(w, pid, Ended);
    case DeciderFlipping(a, decision, comment) =>
      if IsPending(t, a) {
        FlipKeeps(w, pid, a, StatusFor(decision), comment, DeciderRereading(a, decision));
      } else {
        MoveKeeps(w, pid, Ended);
      }
    case DeciderRereading(a, decision) =>
      assert HolderRight(w, w.procs[pid]);
      RereadKeeps(w, pid, a, decision);
  }

  lemma HolderMayResume(w: World, pid: nat)
    requires Inv(w) && pid in w.procs && Resuming(w.procs[pid])
    ensures var proc := w.procs[pid];
            MayResume(w, pid, proc.approval, proc.row, HeldDecision(proc), AfterResuming(proc))
  {
    var proc := w.procs[pid];
    assert HolderRight(w, proc);
    assert forall k :: 0 <= k < |Queue(proc)| ==> ListedRight(w, Queue(proc)[k]);
  }

  lemma ProceedKeeps(w: World, pid: nat, listing: seq<Id>, env: Env)
    requires Inv(w) && Enabled(w, Proceed(pid, listing, env))
    ensures Inv(Advanced(w, pid, listing, env))
  {
    var proc := w.procs[pid];
    if Resuming(proc) {
      HolderMayResume(w, pid);
      ResumeKeeps(w, pid, proc.approval, proc.row, HeldDecision(proc), AfterResuming(proc), env);
    } else if proc.PollerListing? {
      SnapshotRight(w, listing);
      MoveKeeps(w, pid, PollerFlipping(Snapshot(w.tables, listing)));
    } else if proc.PollerFlipping? {
      PollerFlipKeeps(w, pid, proc.queue);
    } else if !proc.Ended? {
      DeciderKeeps(w, pid, listing, env);
    }
  }

  lemma SnapshotRight(w: World, listing: seq<Id>)
    requires IsListing(w.tables, w.clock, listing)
    ensures var queue := Queue(PollerFlipping(Snapshot(w.tables, listing)));
            forall k :: 0 <= k < |queue| ==> ListedRight(w, queue[k])
  {
    var queue := Queue(PollerFlipping(Snapshot(w.tables, listing)));
    forall k | 0 <= k < |queue| ensures ListedRight(w, queue[k]) {
      assert listing[k] in listing;
      assert listing[k] in ExpiredIds(w.tables, w.clock);
    }
  }

  lemma PollerFlipKeeps(w: World, pid: nat, queue: seq<Listed>)
    requires Inv(w) && pid in w.procs && w.procs[pid] == PollerFlipping(queue)
    ensures queue == [] ==> Inv(w.(procs := w.procs[pid := Ended]))
    ensures queue != [] && IsPending(w.tables, queue[0].id) ==>
              Inv(Flip(w, pid, queue[0].id, ApprovalStatus.Expired, Some(EXPIRY_NOTE), PollerResuming(queue[0].id, queue[0].row, queue[1..])))
    ensures queue != [] && !IsPending(w.tables, queue[0].id) ==> Inv(w.(procs := w.procs[pid := PollerFlipping(queue[1..])]))
  {
    assert Queue(w.procs[pid]) == queue;
    assert forall k :: 0 <= k < |queue| ==> ListedRight(w, Queue(w.procs[pid])[k]);
    if queue == [] {
      MoveKeeps(w, pid, Ended);
    } else if IsPending(w.tables, queue[0].id) {
      FlipKeeps(w, pid, queue[0].id, ApprovalStatus.Expired, Some(EXPIRY_NOTE), PollerResuming(queue[0].id, queue[0].row, queue[1..]));
    } else {
      MoveKeeps(w, pid, PollerFlipping(queue[1..]));
    }
  }

  /** Every step of the machine keeps the invariant. */
  lemma StepKeeps(w: World, action: Action)
    requires Inv(w) && Enabled(w, action)
    ensures Inv(Next(w, action))
  {
    match action
    case Define(id, graph) => AdminKeeps(w, w.tables.(definitions := w.tables.definitions[id := graph]));
    case EditCatalog(itemId, item) => AdminKeeps(w, w.tables.(items := w.tables.items[itemId := item]));
    case StartRequest(itemId, requester, env) => StartKeeps(w, itemId, requester, env);
    case AnswerQuestion(id, requester, key, value, env) => AnswerKeeps(w, id, requester, key, value, env);
    case Spawn(pid, proc) => SpawnKeeps(w, pid, proc);
    case Proceed(pid, listing, env) => ProceedKeeps(w, pid, listing, env);
    case Tick(now) => TickKeeps(w, now);
  }

  lemma {:induction false} RunKeeps(w: World, actions: seq<Action>)
    requires Inv(w) && Legal(w, actions)
    ensures Inv(Run(w, actions))
    decreases |actions|
  {
    if actions != [] {
      StepKeeps(w, actions[0]);
      RunKeeps(Next(w, actions[0]), actions[1..]);
    }
  }
}
