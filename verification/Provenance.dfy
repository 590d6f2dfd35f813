/** Where an instance stands and where its tickets were sent are always explained by a path and by decided approvals. */
module Provenance {
  import opened Workflow
  import Engine
  import BranchWalk
  import opened Tables
  import opened Orchestrator
  import opened Calls
  import opened Protocol
  import opened ProtocolSteps
  import opened Guarantees

  type Approvals = map<Id, Approval>

  /** Some row of this instance at this step was decided this way. */
  ghost predicate Backed(rows: Approvals, id: Id, stepId: StepId, decision: ApprovalDecision) {
    exists a :: a in rows && rows[a].instanceId == id && rows[a].stepId == stepId && Matches(rows[a].status, decision)
  }

  ghost predicate Edge(g: Graph, rows: Approvals, id: Id, from: StepId, to: StepId) {
    && g.Find(from).Some?
    && match g.Find(from).value.kind
       case Question(_, _, _, _, next) => to == next
       case Branch(_, onTrue, onFalse) => to == onTrue || to == onFalse
       case WaitForApproval(_, onApprove, onReject, _) =>
         || (to == onApprove && Backed(rows, id, from, Approve))
         || (to == onReject && Backed(rows, id, from, Reject))
       case SubmitTicket(next) => to == next
       case End(_) => false
  }

  ghost predicate Path(g: Graph, rows: Approvals, id: Id, path: seq<StepId>) {
    && path != [] && path[0] == g.entry
    && forall k :: 0 <= k < |path| - 1 ==> Edge(g, rows, id, path[k], path[k + 1])
  }

  ghost predicate Reached(g: Graph, rows: Approvals, id: Id, s: StepId) {
    exists path :: Path(g, rows, id, path) && path[|path| - 1] == s
  }

  /** Rows are only added, and only undecided ones change. */
  ghost predicate Grown(rows: Approvals, rows': Approvals) {
    forall a :: a in rows ==>
      && a in rows' && SameOrigin(rows'[a], rows[a])
      && (!rows[a].status.Pending? ==> rows'[a] == rows[a])
  }

  lemma BackedGrows(rows: Approvals, rows': Approvals, id: Id, stepId: StepId, decision: ApprovalDecision)
    requires Grown(rows, rows') && Backed(rows, id, stepId, decision)
    ensures Backed(rows', id, stepId, decision)
  {
    var a :| a in rows && rows[a].instanceId == id && rows[a].stepId == stepId && Matches(rows[a].status, decision);
    assert a in rows' && rows'[a] == rows[a];
  }

  lemma ReachedGrows(g: Graph, rows: Approvals, rows': Approvals, id: Id, s: StepId)
    requires Grown(rows, rows') && Reached(g, rows, id, s)
    ensures Reached(g, rows', id, s)
  {
    var path :| Path(g, rows, id, path) && path[|path| - 1] == s;
    forall k | 0 <= k < |path| - 1 ensures Edge(g, rows', id, path[k], path[k + 1]) {
      assert Edge(g, rows, id, path[k], path[k + 1]);
      if Backed(rows, id, path[k], Approve) {
        BackedGrows(rows, rows', id, path[k], Approve);
      }
      if Backed(rows, id, path[k], Reject) {
        BackedGrows(rows, rows', id, path[k], Reject);
      }
    }
    assert Path(g, rows', id, path);
  }

  lemma ReachedFurther(g: Graph, rows: Approvals, id: Id, s: StepId, to: StepId)
    requires Reached(g, rows, id, s) && Edge(g, rows, id, s, to)
    ensures Reached(g, rows, id, to)
  {
    var path :| Path(g, rows, id, path) && path[|path| - 1] == s;
    var longer := path + [to];
    forall k | 0 <= k < |longer| - 1 ensures Edge(g, rows, id, longer[k], longer[k + 1]) {
      if k < |path| - 1 {
        assert Edge(g, rows, id, path[k], path[k + 1]);
      }
    }
    assert Path(g, rows, id, longer);
  }

  lemma {:induction false} AdvanceReached(g: Graph, rows: Approvals, id: Id, s: StepId, answers: Answers, fuel: nat)
    requires Reached(g, rows, id, s) && Engine.AdvanceWithin(g, s, answers, fuel).Ok?
    ensures Reached(g, rows, id, Engine.AdvanceWithin(g, s, answers, fuel).stepId)
    decreases fuel
  {
    var kind := g.Find(s).value.kind;
    if kind.Branch? {
      ReachedFurther(g, rows, id, s, Engine.BranchTarget(kind, answers));
      AdvanceReached(g, rows, id, Engine.BranchTarget(kind, answers), answers, fuel - 1);
    }
  }

  /** The row and the new tickets of one call stand on paths. */
  ghost predicate Explained(t: Tables, t': Tables, g: Graph, id: Id) {
    && id in t'.instances && Reached(g, t'.approvals, id, t'.instances[id].stepId)
    && forall k :: |t.tickets| <= k < |t'.tickets| ==> Reached(g, t'.approvals, id, t'.tickets[k].stepId)
  }

  /** Saving a row at a reached step, possibly after opening an approval there. */
  lemma SavedExplained(t: Tables, t1: Tables, g: Graph, id: Id, answers: Answers, stepId: StepId, status: InstanceStatus, now: Time)
    requires id in t.instances && Reached(g, t.approvals, id, stepId) && Grown(t.approvals, t1.approvals)
    requires t1.instances == t.instances && t1.tickets == t.tickets
    ensures Explained(t, Saved(t1, id, stepId, answers, status, now).tables, g, id)
  {
    ReachedGrows(g, t.approvals, t1.approvals, id, stepId);
  }

  /** A ticket at a reached step in front of an explained rest. */
  lemma TicketExplained(t: Tables, t': Tables, g: Graph, id: Id, stepId: StepId, sent: bool)
    requires Reached(g, t.approvals, id, stepId) && Grown(t.approvals, t'.approvals)
    requires var t1 := t.(tickets := t.tickets + [Ticket(id, stepId, sent)]);
             |t1.tickets| <= |t'.tickets| && t'.tickets[..|t1.tickets|] == t1.tickets && Explained(t1, t', g, id)
    ensures Explained(t, t', g, id)
  {
    var n := |t.tickets|;
    ReachedGrows(g, t.approvals, t'.approvals, id, stepId);
    assert t'.tickets[n] == t'.tickets[..n + 1][n];
  }

  lemma {:induction false} ApplyExplained(t: Tables, g: Graph, id: Id, answers: Answers, stepId: StepId, outcome: Engine.Outcome, env: Env)
    requires id in t.instances && Landed(g, stepId, outcome) && env.approvalId !in t.approvals
    requires Reached(g, t.approvals, id, stepId) && Reached(g, t.approvals, id, t.instances[id].stepId)
    ensures Explained(t, ApplyOutcome(t, g, id, answers, stepId, outcome, env).tables, g, id)
    decreases |env.dispatches|, 2
  {
    match outcome
    case AwaitingAnswer(_) => SavedExplained(t, t, g, id, answers, stepId, InstanceStatus.InProgress, env.now);
    case Finished(end) => SavedExplained(t, t, g, id, answers, stepId, StatusOf(end), env.now);
    case AwaitingApproval(_, timeout) =>
      if env.approver.Some? {
        var t1 := InsertApproval(t, env.approvalId, id, stepId, env.approver.value, ExpiryOf(timeout, env.now));
        SavedExplained(t, t1, g, id, answers, stepId, InstanceStatus.AwaitingApproval, env.now);
      }
    case ReadyToSubmitTicket =>
      if env.dispatches != [] {
        DispatchExplained(t, g, id, answers, stepId, env);
      }
  }

  /** A failed ticket step ends the call where it stands. */
  lemma FailedExplained(t: Tables, g: Graph, id: Id, answers: Answers, stepId: StepId, d: Dispatch, now: Time)
    requires id in t.instances && Reached(g, t.approvals, id, stepId)
    ensures Explained(t, UpdateProgress(WithTicket(t, id, stepId, d), id, stepId, answers, InstanceStatus.Failed, now), g, id)
  {
  }

  lemma RefusedExplained(t: Tables, g: Graph, id: Id, stepId: StepId)
    requires id in t.instances && Reached(g, t.approvals, id, stepId) && Reached(g, t.approvals, id, t.instances[id].stepId)
    ensures Explained(t, WithTicket(t, id, stepId, Delivered), g, id)
  {
    TicketExplained(t, WithTicket(t, id, stepId, Delivered), g, id, stepId, true);
  }

  lemma {:induction false} DispatchExplained(t: Tables, g: Graph, id: Id, answers: Answers, stepId: StepId, env: Env)
    requires id in t.instances && AtTicket(g, stepId) && env.approvalId !in t.approvals && env.dispatches != []
    requires Reached(g, t.approvals, id, stepId) && Reached(g, t.approvals, id, t.instances[id].stepId)
    ensures Explained(t, ApplyOutcome(t, g, id, answers, stepId, Engine.ReadyToSubmitTicket, env).tables, g, id)
    decreases |env.dispatches|, 1
  {
    var r := Engine.ResumeAfterTicketDispatch(g, stepId, answers);
    if !env.dispatches[0].Delivered? {
      FailedExplained(t, g, id, answers, stepId, env.dispatches[0], env.now);
    } else if r.Ok? {
      DeliveredExplained(t, g, id, answers, stepId, r, env.(dispatches := env.dispatches[1..]), env);
    } else {
      RefusedExplained(t, g, id, stepId);
    }
  }

  lemma {:induction false} DeliveredExplained(t: Tables, g: Graph, id: Id, answers: Answers, stepId: StepId, r: Engine.EngineResult, rest: Env, env: Env)
    requires id in t.instances && AtTicket(g, stepId) && rest.approvalId !in t.approvals
    requires r == Engine.ResumeAfterTicketDispatch(g, stepId, answers) && r.Ok?
    requires Reached(g, t.approvals, id, stepId) && Reached(g, t.approvals, id, t.instances[id].stepId)
    requires |rest.dispatches| < |env.dispatches|
    ensures Explained(t, ApplyOutcome(WithTicket(t, id, stepId, Delivered), g, id, answers, r.stepId, r.outcome, rest).tables, g, id)
    decreases |env.dispatches|, 0
  {
    var t1 := WithTicket(t, id, stepId, Delivered);
    var next := g.Find(stepId).value.kind.next;
    BranchWalk.AdvanceLands(g, next, answers);
    ReachedFurther(g, t.approvals, id, stepId, next);
    AdvanceReached(g, t.approvals, id, next, answers, Engine.MAX_AUTO_STEPS);
    ApplyExplained(t1, g, id, answers, r.stepId, r.outcome, rest);
    ApplyEffect(t1, g, id, answers, r.stepId, r.outcome, rest);
    var a := ApplyOutcome(t1, g, id, answers, r.stepId, r.outcome, rest);
    OpenedGrows(t1, a.tables, id, rest);
    TicketExplained(t, a.tables, g, id, stepId, true);
  }

  lemma OpenedGrows(t: Tables, t': Tables, id: Id, env: Env)
    requires id in t'.instances && ApprovalOpened(t, t', id, env) && env.approvalId !in t.approvals
    ensures Grown(t.approvals, t'.approvals)
  {
  }

  ghost predicate RowTraced(t: Tables, i: Id)
    requires i in t.instances
  {
    var row := t.instances[i];
    row.definitionId in t.definitions && Reached(t.definitions[row.definitionId], t.approvals, i, row.stepId)
  }

  ghost predicate TicketTraced(t: Tables, ticket: Ticket) {
    && ticket.instanceId in t.instances
    && t.instances[ticket.instanceId].definitionId in t.definitions
    && var g := t.definitions[t.instances[ticket.instanceId].definitionId];
       AtTicket(g, ticket.stepId) && Reached(g, t.approvals, ticket.instanceId, ticket.stepId)
  }

  /** Every row and every ticket stands at the end of a backed path. */
  ghost predicate Traced(t: Tables) {
    && (forall i :: i in t.instances ==> RowTraced(t, i))
    && (forall k :: 0 <= k < |t.tickets| ==> TicketTraced(t, t.tickets[k]))
  }

  /** Growing approvals with the rest unchanged keeps every trace. */
  lemma GrowKeepsTraced(t: Tables, t': Tables)
    requires Traced(t) && Grown(t.approvals, t'.approvals)
    requires t'.instances == t.instances && t'.tickets == t.tickets
    requires forall d :: d in t.definitions ==> d in t'.definitions && t'.definitions[d] == t.definitions[d]
    ensures Traced(t')
  {
    forall i | i in t'.instances ensures RowTraced(t', i) {
      assert RowTraced(t, i);
      ReachedGrows(t.definitions[t.instances[i].definitionId], t.approvals, t'.approvals, i, t.instances[i].stepId);
    }
    forall k | 0 <= k < |t'.tickets| ensures TicketTraced(t', t'.tickets[k]) {
      TicketStaysTraced(t, t', t.tickets[k]);
    }
  }

  lemma TicketStaysTraced(t: Tables, t': Tables, ticket: Ticket)
    requires TicketTraced(t, ticket) && Grown(t.approvals, t'.approvals)
    requires forall d :: d in t.definitions ==> d in t'.definitions && t'.definitions[d] == t.definitions[d]
    requires ticket.instanceId in t'.instances
    requires t'.instances[ticket.instanceId].definitionId == t.instances[ticket.instanceId].definitionId
    ensures TicketTraced(t', ticket)
  {
    var g := t.definitions[t.instances[ticket.instanceId].definitionId];
    ReachedGrows(g, t.approvals, t'.approvals, ticket.instanceId, ticket.stepId);
  }

  /** A call whose own row and tickets are explained keeps every trace. */
  lemma CallKeepsTraced(t: Tables, g: Graph, id: Id, answers: Answers, env: Env, a: Applied)
    requires Traced(t) && Effect(t, g, id, answers, env, a) && env.approvalId !in t.approvals
    requires t.instances[id].definitionId in t.definitions && g == t.definitions[t.instances[id].definitionId]
    requires Explained(t, a.tables, g, id)
    ensures Traced(a.tables)
  {
    var t' := a.tables;
    OpenedGrows(t, t', id, env);
    forall i | i in t'.instances ensures RowTraced(t', i) {
      if i != id {
        assert RowTraced(t, i);
        ReachedGrows(t.definitions[t.instances[i].definitionId], t.approvals, t'.approvals, i, t.instances[i].stepId);
      }
    }
    forall k | 0 <= k < |t'.tickets| ensures TicketTraced(t', t'.tickets[k]) {
      if k < |t.tickets| {
        assert t'.tickets[k] == t'.tickets[..|t.tickets|][k];
        assert TicketTraced(t, t.tickets[k]);
        TicketStaysTraced(t, t', t.tickets[k]);
      }
    }
  }

  lemma AnswerTraced(w: World, id: Id, requester: Id, key: string, value: Json, env: Env)
    requires Inv(w) && Traced(w.tables) && Drawn(w, env)
    ensures Traced(SubmitAnswer(w.tables, id, requester, key, value, env).tables)
  {
    var t := w.tables;
    var a := SubmitAnswer(t, id, requester, key, value, env);
    AnswerEffect(t, id, requester, key, value, env);
    if a.tables != t {
      var row := t.instances[id];
      var g := t.definitions[row.definitionId];
      var (r, answers) := Engine.SubmitAnswer(g, row.stepId, row.answers, key, value);
      var next := g.Find(row.stepId).value.kind.next;
      assert RowTraced(t, id);
      ReachedFurther(g, t.approvals, id, row.stepId, next);
      AdvanceReached(g, t.approvals, id, next, answers, Engine.MAX_AUTO_STEPS);
      BranchWalk.AdvanceLands(g, next, answers);
      ApplyExplained(t, g, id, answers, r.stepId, r.outcome, env);
      CallKeepsTraced(t, g, id, answers, env, a);
    }
  }

  lemma StartTraced(w: World, itemId: Id, requester: Id, env: Env)
    requires Inv(w) && Traced(w.tables) && Drawn(w, env) && env.instanceId !in w.tables.instances
    ensures Traced(StartInstance(w.tables, itemId, requester, env).tables)
  {
    var t := w.tables;
    var a := StartInstance(t, itemId, requester, env);
    StartEffect(t, itemId, requester, env);
    if a.tables != t {
      var d := t.items[itemId].definitionId;
      var g := t.definitions[d];
      var r := Engine.Start(g);
      var id := env.instanceId;
      var t1 := InsertInstance(t, id, d, requester, r.stepId);
      assert Path(g, t.approvals, id, [g.entry]);
      AdvanceReached(g, t.approvals, id, g.entry, map[], Engine.MAX_AUTO_STEPS);
      InsertKeepsTraced(t, t1, id);
      ApplyExplained(t1, g, id, map[], r.stepId, r.outcome, env);
      CallKeepsTraced(t1, g, id, map[], env, a);
    }
  }

  lemma InsertKeepsTraced(t: Tables, t1: Tables, id: Id)
    requires Traced(t) && id !in t.instances && id in t1.instances && RowTraced(t1, id)
    requires t1 == t.(instances := t.instances[id := t1.instances[id]])
    ensures Traced(t1)
  {
    forall i | i in t1.instances && i != id ensures RowTraced(t1, i) {
      assert RowTraced(t, i);
    }
    forall k | 0 <= k < |t1.tickets| ensures TicketTraced(t1, t1.tickets[k]) {
      assert TicketTraced(t, t.tickets[k]);
    }
  }

  lemma ResumeTraced(w: World, pid: nat, a: Id, row: Approval, decision: ApprovalDecision, proc: Proc, env: Env)
    requires Inv(w) && Traced(w.tables) && Drawn(w, env) && MayResume(w, pid, a, row, decision, proc)
    ensures Traced(Resumes(w, pid, a, row, decision, proc, env).tables)
  {
    var t, id := w.tables, row.instanceId;
    var result := ResumeAfterApproval(t, id, row.stepId, decision, env);
    ResumeCall(w, pid, a, row, decision, proc, env);
    ResumeEffect(t, id, row.stepId, decision, env);
    if result.tables != t {
      assert OpenPlaced(w, a) && RowTraced(t, id) && HolderRight(w, w.procs[pid]);
      var answers := t.instances[id].answers;
      var g := t.definitions[t.instances[id].definitionId];
      var kind := g.Find(row.stepId).value.kind;
      var next := if decision.Approve? then kind.onApprove else kind.onReject;
      assert Backed(t.approvals, id, row.stepId, decision) by {
        assert t.approvals[a].stepId == row.stepId;
      }
      ReachedFurther(g, t.approvals, id, row.stepId, next);
      AdvanceReached(g, t.approvals, id, next, answers, Engine.MAX_AUTO_STEPS);
      BranchWalk.AdvanceLands(g, next, answers);
      var r := Engine.ResumeAfterApproval(g, row.stepId, answers, decision);
      ApplyExplained(t, g, id, answers, r.stepId, r.outcome, env);
      CallKeepsTraced(t, g, id, answers, env, result);
    }
  }

  lemma FlipTraced(t: Tables, a: Id, status: ApprovalStatus, comment: Option<string>, now: Time)
    requires Traced(t)
    ensures Traced(FlipApproval(t, a, status, comment, now))
  {
    GrowKeepsTraced(t, FlipApproval(t, a, status, comment, now));
  }

  lemma ResumingTraced(w: World, pid: nat, listing: seq<Id>, env: Env)
    requires Inv(w) && Enabled(w, Proceed(pid, listing, env)) && Traced(w.tables) && Resuming(w.procs[pid])
    ensures Traced(Advanced(w, pid, listing, env).tables)
  {
    var proc := w.procs[pid];
    HolderMayResume(w, pid);
    ResumeTraced(w, pid, proc.approval, proc.row, HeldDecision(proc), AfterResuming(proc), env);
  }

  lemma FlippingTraced(w: World, pid: nat, listing: seq<Id>, env: Env)
    requires Enabled(w, Proceed(pid, listing, env)) && Traced(w.tables) && !Resuming(w.procs[pid])
    ensures Traced(Advanced(w, pid, listing, env).tables)
  {
    ProceedTables(w, pid, listing, env);
    if Flips(w.procs[pid]).Some? {
      var f := Flips(w.procs[pid]).value;
      FlipTraced(w.tables, f.approval, f.status, f.comment, w.clock);
    }
  }

  lemma StepTraced(w: World, action: Action)
    requires Inv(w) && Enabled(w, action) && Traced(w.tables)
    ensures Traced(Next(w, action).tables)
  {
    match action
    case StartRequest(itemId, requester, env) => StartTraced(w, itemId, requester, env);
    case AnswerQuestion(id, requester, key, value, env) => AnswerTraced(w, id, requester, key, value, env);
    case Proceed(pid, listing, env) =>
      if Resuming(w.procs[pid]) {
        ResumingTraced(w, pid, listing, env);
      } else {
        FlippingTraced(w, pid, listing, env);
      }
    case Define(_, _) => GrowKeepsTraced(w.tables, Next(w, action).tables);
    case EditCatalog(_, _) => GrowKeepsTraced(w.tables, Next(w, action).tables);
    case Spawn(_, _) =>
    case Tick(_) =>
  }

  lemma {:induction false} RunTraced(w: World, actions: seq<Action>)
    requires Inv(w) && Legal(w, actions) && Traced(w.tables)
    ensures Traced(Run(w, actions).tables)
    decreases |actions|
  {
    if actions != [] {
      StepTraced(w, actions[0]);
      StepKeeps(w, actions[0]);
      RunTraced(Next(w, actions[0]), actions[1..]);
    }
  }

  /**
   * Every ticket of every run was sent from a `SubmitTicket` step at the end of a path from the entry whose approve
   * edges are each backed by an approved row of that instance, and whose reject edges by a rejected or expired one.
   */
  lemma TicketsAreTraced(w: World, actions: seq<Action>, k: nat)
    requires Initial(w) && Legal(w, actions) && k < |Run(w, actions).tables.tickets|
    ensures TicketTraced(Run(w, actions).tables, Run(w, actions).tables.tickets[k])
  {
    InitialInv(w);
    RunTraced(w, actions);
  }
}
