/** What any single orchestrator call can do to the tables, whichever failure occurs on the way. */
module Calls {
  import opened Workflow
  import Engine
  import BranchWalk
  import opened Tables
  import opened Orchestrator

  /** A stored instance of `g`. */
  ghost predicate InstanceOf(t: Tables, id: Id, g: Graph) {
    id in t.instances && t.instances[id].definitionId in t.definitions && t.definitions[t.instances[id].definitionId] == g
  }

  /** The outcome belongs to the step it was produced at. */
  ghost predicate Landed(g: Graph, stepId: StepId, outcome: Engine.Outcome) {
    && g.Find(stepId).Some?
    && !g.Find(stepId).value.kind.Branch?
    && outcome == Engine.OutcomeOf(g.Find(stepId).value.kind)
  }

  /** The stored status is the one the kind of the current step calls for. */
  ghost predicate Agrees(g: Graph, row: Instance) {
    && g.Find(row.stepId).Some?
    && var kind := g.Find(row.stepId).value.kind;
       match row.status
       case InProgress => kind.Question?
       case AwaitingApproval => kind.WaitForApproval?
       case Completed => kind == End(EndOutcome.Completed)
       case Rejected => kind == End(EndOutcome.Rejected)
       case Cancelled => kind == End(EndOutcome.Cancelled)
       case Failed => kind.SubmitTicket?
  }

  ghost predicate AtTicket(g: Graph, stepId: StepId) {
    g.Find(stepId).Some? && g.Find(stepId).value.kind.SubmitTicket?
  }

  /** Nothing but `id`'s row, one new approval and new tickets for `id` can differ. */
  ghost predicate Frame(t: Tables, t': Tables, id: Id) {
    && t'.items == t.items
    && t'.definitions == t.definitions
    && t'.instances.Keys == t.instances.Keys
    && (forall j :: j in t.instances && j != id ==> t'.instances[j] == t.instances[j])
    && (id in t.instances ==>
          && t'.instances[id].definitionId == t.instances[id].definitionId
          && t'.instances[id].requester == t.instances[id].requester)
    && |t.tickets| <= |t'.tickets|
    && t'.tickets[..|t.tickets|] == t.tickets
    && (forall k :: |t.tickets| <= k < |t'.tickets| ==> t'.tickets[k].instanceId == id)
  }

  /** New tickets stand at `SubmitTicket` steps. */
  ghost predicate TicketsPlaced(t: Tables, t': Tables, g: Graph) {
    forall k :: |t.tickets| <= k < |t'.tickets| ==> AtTicket(g, t'.tickets[k].stepId)
  }

  /** No approval, or exactly one: pending, and standing where the awaiting instance now stands. */
  ghost predicate ApprovalOpened(t: Tables, t': Tables, id: Id, env: Env)
    requires id in t'.instances
  {
    || t'.approvals == t.approvals
    || (&& env.approver.Some?
        && t'.instances[id].status == InstanceStatus.AwaitingApproval
        && exists expiresAt :: t'.approvals ==
             t.approvals[env.approvalId :=
               Approval(id, t'.instances[id].stepId, env.approver.value, Pending, None, None, expiresAt)])
  }

  /** The stored row after a call: saved in agreement with its step, failed at a ticket, or untouched. */
  ghost predicate RowMoved(g: Graph, old_: Instance, new_: Instance, answers: Answers, reply: Reply) {
    match reply
    case Done(row) => row == new_ && Agrees(g, new_) && new_.answers == answers && new_.status != InstanceStatus.Failed
    case Refused(_) =>
      || new_ == old_
      || (new_.status == InstanceStatus.Failed && AtTicket(g, new_.stepId) && new_.answers == answers)
    case Running => new_ == old_
  }

  ghost predicate Effect(t: Tables, g: Graph, id: Id, answers: Answers, env: Env, a: Applied) {
    && id in t.instances
    && Frame(t, a.tables, id)
    && TicketsPlaced(t, a.tables, g)
    && ApprovalOpened(t, a.tables, id, env)
    && RowMoved(g, t.instances[id], a.tables.instances[id], answers, a.reply)
  }

  lemma SaveEffect(t: Tables, g: Graph, id: Id, answers: Answers, stepId: StepId, status: InstanceStatus, env: Env)
    requires id in t.instances && status != InstanceStatus.Failed
    requires Agrees(g, t.instances[id].(stepId := stepId, status := status))
    ensures Effect(t, g, id, answers, env, Saved(t, id, stepId, answers, status, env.now))
  {
  }

  lemma OpenEffect(t: Tables, g: Graph, id: Id, answers: Answers, stepId: StepId, expiresAt: Option<Time>, env: Env)
    requires id in t.instances && env.approver.Some?
    requires g.Find(stepId).Some? && g.Find(stepId).value.kind.WaitForApproval?
    ensures Effect(t, g, id, answers, env,
                   Saved(InsertApproval(t, env.approvalId, id, stepId, env.approver.value, expiresAt),
                         id, stepId, answers, InstanceStatus.AwaitingApproval, env.now))
  {
    var t1 := InsertApproval(t, env.approvalId, id, stepId, env.approver.value, expiresAt);
    var a := Saved(t1, id, stepId, answers, InstanceStatus.AwaitingApproval, env.now);
    assert a.tables.approvals == t.approvals[env.approvalId :=
      Approval(id, a.tables.instances[id].stepId, env.approver.value, Pending, None, None, expiresAt)];
  }

  lemma FailEffect(t: Tables, g: Graph, id: Id, answers: Answers, stepId: StepId, d: Dispatch, env: Env)
    requires id in t.instances && AtTicket(g, stepId)
    ensures Effect(t, g, id, answers, env,
                   Applied(UpdateProgress(WithTicket(t, id, stepId, d), id, stepId, answers, InstanceStatus.Failed, env.now),
                           Refused(DispatchError(d))))
  {
  }

  /** A delivered ticket in front of a call's effect is again a call's effect. */
  lemma DeliverEffect(t: Tables, g: Graph, id: Id, answers: Answers, stepId: StepId, env: Env, rest: Env, a: Applied)
    requires id in t.instances && AtTicket(g, stepId)
    requires rest.approver == env.approver && rest.approvalId == env.approvalId
    requires Effect(WithTicket(t, id, stepId, Delivered), g, id, answers, rest, a)
    ensures Effect(t, g, id, answers, env, a)
  {
    var t1 := WithTicket(t, id, stepId, Delivered);
    var n := |t.tickets|;
    assert a.tables.tickets[..n + 1] == t1.tickets;
    assert a.tables.tickets[..n] == a.tables.tickets[..n + 1][..n] == t.tickets;
    assert a.tables.tickets[n] == a.tables.tickets[..n + 1][n] == Ticket(id, stepId, true);
    assert Frame(t, a.tables, id);
    assert ApprovalOpened(t, a.tables, id, env);
  }

  lemma {:induction false} ApplyEffect(t: Tables, g: Graph, id: Id, answers: Answers, stepId: StepId, outcome: Engine.Outcome, env: Env)
    requires id in t.instances && Landed(g, stepId, outcome)
    ensures Effect(t, g, id, answers, env, ApplyOutcome(t, g, id, answers, stepId, outcome, env))
    decreases |env.dispatches|
  {
    match outcome
    case AwaitingAnswer(_) =>
      SaveEffect(t, g, id, answers, stepId, InstanceStatus.InProgress, env);
    case AwaitingApproval(_, timeout) =>
      if env.approver.Some? {
        OpenEffect(t, g, id, answers, stepId, ExpiryOf(timeout, env.now), env);
      }
    case Finished(end) =>
      SaveEffect(t, g, id, answers, stepId, StatusOf(end), env);
    case ReadyToSubmitTicket =>
      if env.dispatches != [] {
        var d := env.dispatches[0];
        var rest := env.(dispatches := env.dispatches[1..]);
        if !d.Delivered? {
          FailEffect(t, g, id, answers, stepId, d, env);
        } else {
          var t1 := WithTicket(t, id, stepId, d);
          var r := Engine.ResumeAfterTicketDispatch(g, stepId, answers);
          if r.Ok? {
            BranchWalk.AdvanceLands(g, g.Find(stepId).value.kind.next, answers);
            ApplyEffect(t1, g, id, answers, r.stepId, r.outcome, rest);
            DeliverEffect(t, g, id, answers, stepId, env, rest, ApplyOutcome(t1, g, id, answers, r.stepId, r.outcome, rest));
          } else {
            DeliverEffect(t, g, id, answers, stepId, env, rest, Applied(t1, Refused(EngineFailure(r.error))));
          }
        }
      }
  }

  /** An answer either changes nothing at all or has the effect of applying the engine's outcome. */
  lemma AnswerEffect(t: Tables, id: Id, requester: Id, key: string, value: Json, env: Env)
    ensures var a := SubmitAnswer(t, id, requester, key, value, env);
            || (a.tables == t && !a.reply.Done?)
            || (&& id in t.instances && t.instances[id].status == InstanceStatus.InProgress
                && t.instances[id].definitionId in t.definitions
                && Effect(t, t.definitions[t.instances[id].definitionId], id, t.instances[id].answers[key := value], env, a))
  {
    if id in t.instances && t.instances[id].definitionId in t.definitions {
      var row := t.instances[id];
      var g := t.definitions[row.definitionId];
      var (result, answers) := Engine.SubmitAnswer(g, row.stepId, row.answers, key, value);
      if result.Ok? {
        BranchWalk.AdvanceLands(g, g.Find(row.stepId).value.kind.next, answers);
        ApplyEffect(t, g, id, answers, result.stepId, result.outcome, env);
      }
    }
  }

  lemma ResumeEffect(t: Tables, id: Id, stepId: StepId, decision: ApprovalDecision, env: Env)
    ensures var a := ResumeAfterApproval(t, id, stepId, decision, env);
            || (a.tables == t && !a.reply.Done?)
            || (&& id in t.instances && t.instances[id].definitionId in t.definitions
                && Effect(t, t.definitions[t.instances[id].definitionId], id, t.instances[id].answers, env, a))
  {
    if id in t.instances && t.instances[id].definitionId in t.definitions {
      var row := t.instances[id];
      var g := t.definitions[row.definitionId];
      var result := Engine.ResumeAfterApproval(g, stepId, row.answers, decision);
      if result.Ok? {
        var kind := g.Find(stepId).value.kind;
        BranchWalk.AdvanceLands(g, if decision.Approve? then kind.onApprove else kind.onReject, row.answers);
        ApplyEffect(t, g, id, row.answers, result.stepId, result.outcome, env);
      }
    }
  }

  /** A start either changes nothing, or inserts a row standing at a non-branch step and applies the outcome to it. */
  lemma StartEffect(t: Tables, itemId: Id, requester: Id, env: Env)
    ensures var a := StartInstance(t, itemId, requester, env);
            || (a.tables == t && !a.reply.Done?)
            || (&& itemId in t.items && t.items[itemId].definitionId in t.definitions
                && var d := t.items[itemId].definitionId;
                   var r := Engine.Start(t.definitions[d]);
                   && r.Ok? && Landed(t.definitions[d], r.stepId, r.outcome)
                   && Effect(InsertInstance(t, env.instanceId, d, requester, r.stepId), t.definitions[d], env.instanceId, map[], env, a))
  {
    if itemId in t.items && t.items[itemId].active && t.items[itemId].definitionId in t.definitions {
      var d := t.items[itemId].definitionId;
      var g := t.definitions[d];
      var r := Engine.Start(g);
      if r.Ok? {
        BranchWalk.AdvanceLands(g, g.entry, map[]);
        ApplyEffect(InsertInstance(t, env.instanceId, d, requester, r.stepId), g, env.instanceId, map[], r.stepId, r.outcome, env);
      }
    }
  }
}

/** When the outcome loop stops, what it dispatches until then, and when it never stops. */
module TicketLoop {
  import opened Workflow
  import Engine
  import BranchWalk
  import Orbit
  import opened Sessions
  import opened Conversations
  import opened Tables
  import opened Orchestrator
  import opened Calls

  /** The ticket step served `k` deliveries after `id`, if the loop gets that far. */
  function TicketAt(g: Graph, id: StepId, answers: Answers, k: nat): Option<StepId>
    decreases k
  {
    if k == 0 then Some(id)
    else
      match Engine.ResumeAfterTicketDispatch(g, id, answers)
      case Ok(next, ReadyToSubmitTicket) => TicketAt(g, next, answers, k - 1)
      case _ => None
  }

  function Deliveries(n: nat): seq<Dispatch> {
    seq(n, _ => Delivered)
  }

  function SubmitIds(g: Graph): set<StepId> {
    set s | s in g.steps && s.kind.SubmitTicket? :: s.id
  }

  /** The tickets the loop has written after `m` deliveries. */
  ghost predicate Wrote(t: Tables, t': Tables, id: Id, g: Graph, stepId: StepId, answers: Answers, m: nat) {
    && |t'.tickets| == |t.tickets| + m
    && t'.tickets[..|t.tickets|] == t.tickets
    && forall k: nat :: k < m ==>
         TicketAt(g, stepId, answers, k).Some?
         && t'.tickets[|t.tickets| + k] == Ticket(id, TicketAt(g, stepId, answers, k).value, true)
  }

  ghost function RunWith(t: Tables, g: Graph, id: Id, answers: Answers, stepId: StepId, env: Env, n: nat): Applied {
    ApplyOutcome(t, g, id, answers, stepId, Engine.ReadyToSubmitTicket, env.(dispatches := Deliveries(n)))
  }

  /** One turn of the loop. */
  lemma RunUnfolds(t: Tables, g: Graph, id: Id, answers: Answers, stepId: StepId, env: Env, n: nat)
    requires n > 0
    ensures RunWith(t, g, id, answers, stepId, env, n) ==
            (var t1 := WithTicket(t, id, stepId, Delivered);
             match Engine.ResumeAfterTicketDispatch(g, stepId, answers)
             case Err(e) => Applied(t1, Refused(EngineFailure(e)))
             case Ok(nextId, next) => ApplyOutcome(t1, g, id, answers, nextId, next, env.(dispatches := Deliveries(n - 1))))
  {
    assert Deliveries(n)[1..] == Deliveries(n - 1);
    var e := env.(dispatches := Deliveries(n));
    assert e.(dispatches := e.dispatches[1..]) == env.(dispatches := Deliveries(n - 1));
  }

  /** `a` is what serving the chain of ticket steps from `stepId` with `n` deliveries looks like. */
  ghost predicate Follows(t: Tables, a: Applied, id: Id, g: Graph, stepId: StepId, answers: Answers, n: nat) {
    && (a.reply.Running? <==> TicketAt(g, stepId, answers, n).Some?)
    && (a.reply.Running? ==> Wrote(t, a.tables, id, g, stepId, answers, n))
    && (!a.reply.Running? ==> exists m: nat :: m <= n && TicketAt(g, stepId, answers, m).None?
                                               && Wrote(t, a.tables, id, g, stepId, answers, m))
  }

  lemma FollowsLast(t: Tables, a: Applied, id: Id, g: Graph, stepId: StepId, answers: Answers, n: nat)
    requires n > 0 && !a.reply.Running? && a.tables.tickets == t.tickets + [Ticket(id, stepId, true)]
    requires var r := Engine.ResumeAfterTicketDispatch(g, stepId, answers); r.Ok? ==> !r.outcome.ReadyToSubmitTicket?
    ensures Follows(t, a, id, g, stepId, answers, n)
  {
    assert TicketAt(g, stepId, answers, n).None?;
    assert TicketAt(g, stepId, answers, 0) == Some(stepId);
    assert TicketAt(g, stepId, answers, 1).None? && Wrote(t, a.tables, id, g, stepId, answers, 1);
  }

  lemma FollowsNext(t: Tables, a: Applied, id: Id, g: Graph, stepId: StepId, next: StepId, answers: Answers, n: nat)
    requires n > 0 && Engine.ResumeAfterTicketDispatch(g, stepId, answers) == Engine.Ok(next, Engine.ReadyToSubmitTicket)
    requires Follows(WithTicket(t, id, stepId, Delivered), a, id, g, next, answers, n - 1)
    ensures Follows(t, a, id, g, stepId, answers, n)
  {
    var t1 := WithTicket(t, id, stepId, Delivered);
    assert TicketAt(g, stepId, answers, n) == TicketAt(g, next, answers, n - 1);
    if a.reply.Running? {
      PrependTicket(t, a.tables, id, g, stepId, next, answers, n - 1);
    } else {
      var m: nat :| m <= n - 1 && TicketAt(g, next, answers, m).None? && Wrote(t1, a.tables, id, g, next, answers, m);
      PrependTicket(t, a.tables, id, g, stepId, next, answers, m);
    }
  }

  /**
   * With every dispatch delivered, the loop is still running after `n` deliveries exactly when the chain of ticket
   * steps is longer than `n`, and the tickets written are that chain in path order, one each.
   */
  lemma {:induction false} LoopFollowsChain(t: Tables, g: Graph, id: Id, answers: Answers, stepId: StepId, env: Env, n: nat)
    ensures Follows(t, RunWith(t, g, id, answers, stepId, env, n), id, g, stepId, answers, n)
    decreases n
  {
    var a := RunWith(t, g, id, answers, stepId, env, n);
    if n > 0 {
      RunUnfolds(t, g, id, answers, stepId, env, n);
      var t1 := WithTicket(t, id, stepId, Delivered);
      var r := Engine.ResumeAfterTicketDispatch(g, stepId, answers);
      if r.Ok? && r.outcome.ReadyToSubmitTicket? {
        LoopFollowsChain(t1, g, id, answers, r.stepId, env, n - 1);
        FollowsNext(t, a, id, g, stepId, r.stepId, answers, n);
      } else {
        FollowsLast(t, a, id, g, stepId, answers, n);
      }
    }
  }

  lemma PrependTicket(t: Tables, t': Tables, id: Id, g: Graph, stepId: StepId, next: StepId, answers: Answers, m: nat)
    requires Engine.ResumeAfterTicketDispatch(g, stepId, answers) == Engine.Ok(next, Engine.ReadyToSubmitTicket)
    requires Wrote(WithTicket(t, id, stepId, Delivered), t', id, g, next, answers, m)
    ensures Wrote(t, t', id, g, stepId, answers, m + 1)
    ensures TicketAt(g, stepId, answers, m + 1) == TicketAt(g, next, answers, m)
  {
    var t1 := WithTicket(t, id, stepId, Delivered);
    var n := |t.tickets|;
    assert t'.tickets[..n + 1] == t1.tickets;
    assert t'.tickets[..n] == t'.tickets[..n + 1][..n];
    assert t'.tickets[n] == t'.tickets[..n + 1][n];
    forall k: nat | k < m + 1
      ensures TicketAt(g, stepId, answers, k).Some?
              && t'.tickets[n + k] == Ticket(id, TicketAt(g, stepId, answers, k).value, true)
    {
      if k > 0 {
        assert TicketAt(g, stepId, answers, k) == TicketAt(g, next, answers, k - 1);
        assert t'.tickets[|t1.tickets| + (k - 1)] == Ticket(id, TicketAt(g, next, answers, k - 1).value, true);
      }
    }
  }

  lemma {:induction false} ChainCompose(g: Graph, id: StepId, answers: Answers, m: nat, n: nat)
    ensures TicketAt(g, id, answers, m + n) ==
            (match TicketAt(g, id, answers, m) case None => None case Some(mid) => TicketAt(g, mid, answers, n))
    decreases m
  {
    if m > 0 {
      match Engine.ResumeAfterTicketDispatch(g, id, answers)
      case Ok(next, ReadyToSubmitTicket) => ChainCompose(g, next, answers, m - 1, n);
      case _ =>
    }
  }

  /** The chain of ticket steps as a function of the number of deliveries. */
  ghost function Tickets(g: Graph, id: StepId, answers: Answers): nat -> Option<StepId> {
    (k: nat) => TicketAt(g, id, answers, k)
  }

  lemma TicketsAreWalk(g: Graph, id: StepId, answers: Answers)
    ensures Orbit.IsWalk(Tickets(g, id, answers))
  {
    var s := Tickets(g, id, answers);
    forall n: nat ensures Orbit.StaysStopped(s, n) {
      ChainCompose(g, id, answers, n, 1);
    }
    forall j: nat, k: nat ensures Orbit.InStep(s, j, k) {
      ChainCompose(g, id, answers, j, 1);
      ChainCompose(g, id, answers, k, 1);
    }
  }

  lemma {:induction false} ChainInGraph(g: Graph, id: StepId, answers: Answers, k: nat)
    requires AtTicket(g, id) && TicketAt(g, id, answers, k).Some?
    ensures TicketAt(g, id, answers, k).value in SubmitIds(g)
    decreases k
  {
    FindIffHasId(g, id);
    if k > 0 {
      var next := Engine.ResumeAfterTicketDispatch(g, id, answers).stepId;
      BranchWalk.AdvanceLands(g, g.Find(id).value.kind.next, answers);
      ChainInGraph(g, next, answers, k - 1);
    }
  }

  ghost predicate NeverReturns(t: Tables, g: Graph, id: Id, answers: Answers, stepId: StepId, env: Env) {
    forall n: nat :: RunWith(t, g, id, answers, stepId, env, n).reply.Running?
  }

  /** The loop runs forever exactly when its chain of ticket steps comes back to one it already served. */
  lemma DivergesIffTicketRevisited(t: Tables, g: Graph, id: Id, answers: Answers, stepId: StepId, env: Env)
    requires AtTicket(g, stepId)
    ensures NeverReturns(t, g, id, answers, stepId, env) <==> Orbit.Repeats(Tickets(g, stepId, answers))
  {
    var s := Tickets(g, stepId, answers);
    TicketsAreWalk(g, stepId, answers);
    forall k: nat | s(k).Some? ensures s(k).value in SubmitIds(g) {
      ChainInGraph(g, stepId, answers, k);
    }
    Orbit.ForeverIffRepeats(s, SubmitIds(g));
    forall n: nat ensures RunWith(t, g, id, answers, stepId, env, n).reply.Running? <==> s(n).Some? {
      LoopFollowsChain(t, g, id, answers, stepId, env, n);
    }
  }

  /** A returning loop served each of its ticket steps once, hence no more often than the graph has ticket steps. */
  lemma ReturningLoopServesOnce(t: Tables, g: Graph, id: Id, answers: Answers, stepId: StepId, env: Env, n: nat)
    requires AtTicket(g, stepId) && !RunWith(t, g, id, answers, stepId, env, n).reply.Running?
    ensures var t' := RunWith(t, g, id, answers, stepId, env, n).tables;
            && |t.tickets| <= |t'.tickets| <= |t.tickets| + |SubmitIds(g)|
            && forall j, k :: |t.tickets| <= j < k < |t'.tickets| ==> t'.tickets[j].stepId != t'.tickets[k].stepId
  {
    LoopFollowsChain(t, g, id, answers, stepId, env, n);
    var t' := RunWith(t, g, id, answers, stepId, env, n).tables;
    var m: nat :| m <= n && TicketAt(g, stepId, answers, m).None? && Wrote(t, t', id, g, stepId, answers, m);
    var s := Tickets(g, stepId, answers);
    TicketsAreWalk(g, stepId, answers);
    forall j: nat, k: nat | j < k < m ensures s(j) != s(k) {
      assert TicketAt(g, stepId, answers, j).Some?;
      if s(j) == s(k) {
        Orbit.RepeatIsForever(s, j, k, m);
      }
    }
    forall k: nat | k < m ensures s(k).Some? && s(k).value in SubmitIds(g) {
      assert TicketAt(g, stepId, answers, k).Some?;
      ChainInGraph(g, stepId, answers, k);
    }
    Orbit.DistinctFit(s, m, SubmitIds(g));
    forall j, k | |t.tickets| <= j < k < |t'.tickets| ensures t'.tickets[j].stepId != t'.tickets[k].stepId {
      var j0: nat, k0: nat := j - |t.tickets|, k - |t.tickets|;
      assert t'.tickets[|t.tickets| + j0].stepId == s(j0).value && t'.tickets[|t.tickets| + k0].stepId == s(k0).value;
      assert s(j0) != s(k0);
    }
  }

  /** Where `n` hops through branch and ticket steps lead; at most `room` of them, then 255 per ticket, are branch hops. */
  function Route(g: Graph, id: StepId, answers: Answers, n: nat, room: nat): Option<StepId>
    decreases n
  {
    if n == 0 then Some(id)
    else
      match g.Find(id)
      case None => None
      case Some(step) =>
        if step.kind.Branch? then
          (if room == 0 then None else Route(g, Engine.BranchTarget(step.kind, answers), answers, n - 1, room - 1))
        else if step.kind.SubmitTicket? then Route(g, step.kind.next, answers, n - 1, 255)
        else None
  }

  /** A step at which the loop saves and returns. */
  ghost predicate Resting(g: Graph, s: StepId) {
    g.Find(s).Some? && !g.Find(s).value.kind.Branch? && !g.Find(s).value.kind.SubmitTicket?
  }

  ghost predicate RestsAt(g: Graph, id: StepId, answers: Answers, n: nat, room: nat, s: StepId) {
    Route(g, id, answers, n, room) == Some(s) && Resting(g, s)
  }

  ghost predicate ReturnedAt(g: Graph, reply: Reply, s: StepId, answers: Answers) {
    reply.Done? && reply.row.stepId == s && reply.row.answers == answers && Agrees(g, reply.row)
  }

  /** The branch hops a route starts with, up to its first non-branch step. */
  lemma {:induction false} RouteLeavesBranches(g: Graph, id: StepId, answers: Answers, n: nat, room: nat, s: StepId) returns (i: nat, y: StepId)
    requires RestsAt(g, id, answers, n, room, s)
    ensures i <= n && i <= room && BranchWalk.StopsAt(g, id, answers, i, y) && RestsAt(g, y, answers, n - i, room - i, s)
    decreases n
  {
    if BranchWalk.AtBranch(g, id) {
      i, y := RouteLeavesBranches(g, Engine.BranchTarget(g.Find(id).value.kind, answers), answers, n - 1, room - 1, s);
      i := i + 1;
    } else {
      i, y := 0, id;
    }
  }

  lemma {:induction false} RouteAfterBranches(g: Graph, id: StepId, answers: Answers, i: nat, y: StepId, n: nat, room: nat)
    requires i <= room && BranchWalk.StopsAt(g, id, answers, i, y)
    ensures Route(g, id, answers, i + n, room) == Route(g, y, answers, n, room - i)
    decreases i
  {
    if i > 0 {
      RouteAfterBranches(g, Engine.BranchTarget(g.Find(id).value.kind, answers), answers, i - 1, y, n, room - 1);
    }
  }

  lemma RestingReturns(t: Tables, g: Graph, id: Id, answers: Answers, s: StepId, env: Env)
    requires id in t.instances && env.approver.Some? && Resting(g, s)
    ensures ReturnedAt(g, ApplyOutcome(t, g, id, answers, s, Engine.OutcomeOf(g.Find(s).value.kind), env).reply, s, answers)
  {
  }

  /** A route that comes to rest makes the loop return, saving the instance at the resting step. */
  lemma {:induction false} RestingRouteReturns(t: Tables, g: Graph, id: Id, answers: Answers, stepId: StepId, env: Env, n: nat, room: nat, s: StepId)
    returns (m: nat)
    requires id in t.instances && env.approver.Some?
    requires AtTicket(g, stepId) && RestsAt(g, stepId, answers, n, room, s)
    ensures ReturnedAt(g, RunWith(t, g, id, answers, stepId, env, m).reply, s, answers)
    decreases n
  {
    assert n > 0;
    var next := g.Find(stepId).value.kind.next;
    var i, y := RouteLeavesBranches(g, next, answers, n - 1, 255, s);
    BranchWalk.StopExcludesOthers(g, next, answers, i, y);
    var t1 := WithTicket(t, id, stepId, Delivered);
    if AtTicket(g, y) {
      m := RestingRouteReturns(t1, g, id, answers, y, env, n - 1 - i, 255 - i, s);
      RunUnfolds(t, g, id, answers, stepId, env, m + 1);
      m := m + 1;
    } else {
      assert y == s;
      RunUnfolds(t, g, id, answers, stepId, env, 1);
      RestingReturns(t1, g, id, answers, y, env.(dispatches := Deliveries(0)));
      m := 1;
    }
  }

  /** A loop that returns a row followed a route that comes to rest at that row's step. */
  lemma {:induction false} ReturnHasRoute(t: Tables, g: Graph, id: Id, answers: Answers, stepId: StepId, env: Env, m: nat, s: StepId)
    returns (n: nat)
    requires id in t.instances && env.approver.Some?
    requires AtTicket(g, stepId) && ReturnedAt(g, RunWith(t, g, id, answers, stepId, env, m).reply, s, answers)
    ensures n > 0 && RestsAt(g, stepId, answers, n, 255, s)
    decreases m
  {
    RunUnfolds(t, g, id, answers, stepId, env, m);
    var next := g.Find(stepId).value.kind.next;
    var y := Engine.Advance(g, next, answers).stepId;
    var i := StopOf(g, next, answers);
    var t1 := WithTicket(t, id, stepId, Delivered);
    if AtTicket(g, y) {
      var k := ReturnHasRoute(t1, g, id, answers, y, env, m - 1, s);
      RouteAfterBranches(g, next, answers, i, y, k, 255);
      n := 1 + i + k;
    } else {
      RestingReturns(t1, g, id, answers, y, env.(dispatches := Deliveries(m - 1)));
      RouteAfterBranches(g, next, answers, i, y, 0, 255);
      n := 1 + i;
    }
  }

  lemma StopOf(g: Graph, id: StepId, answers: Answers) returns (i: nat)
    requires Engine.Advance(g, id, answers).Ok?
    ensures i <= 255 && BranchWalk.StopsAt(g, id, answers, i, Engine.Advance(g, id, answers).stepId)
    ensures var r := Engine.Advance(g, id, answers); r.outcome == Engine.OutcomeOf(g.Find(r.stepId).value.kind)
  {
    var r := Engine.Advance(g, id, answers);
    BranchWalk.AdvanceSucceedsIff(g, id, answers, r.stepId, r.outcome);
    i :| i <= 255 && BranchWalk.StopsAt(g, id, answers, i, r.stepId) && r.outcome == Engine.OutcomeOf(g.Find(r.stepId).value.kind);
  }

  /**
   * With every dispatch delivered and approvers resolved, the loop returns with the instance saved at `s` exactly when
   * the hops through branch and ticket steps come to rest at `s`, no stretch of branches being longer than 255.
   */
  lemma ReturnsIffRouteRests(t: Tables, g: Graph, id: Id, answers: Answers, stepId: StepId, env: Env, s: StepId)
    requires id in t.instances && env.approver.Some? && AtTicket(g, stepId)
    ensures (exists m: nat :: ReturnedAt(g, RunWith(t, g, id, answers, stepId, env, m).reply, s, answers))
            <==> exists n: nat :: RestsAt(g, stepId, answers, n, 255, s)
  {
    if m: nat :| ReturnedAt(g, RunWith(t, g, id, answers, stepId, env, m).reply, s, answers) {
      var n := ReturnHasRoute(t, g, id, answers, stepId, env, m, s);
    }
    if n: nat :| RestsAt(g, stepId, answers, n, 255, s) {
      var m := RestingRouteReturns(t, g, id, answers, stepId, env, n, 255, s);
    }
  }

  /** Some conversation stands at a ticket step that leads straight on to another. */
  ghost predicate ChainsTickets(g: Graph) {
    exists talk, p :: Arrives(g, talk, p) && AtTicket(g, p.stepId) && TicketAt(g, p.stepId, p.answers, 1).Some?
  }

  ghost predicate OneTicketPerCall(g: Graph) {
    forall t: Tables, id: Id, talk, p, env: Env :: InstanceOf(t, id, g) && Arrives(g, talk, p) && AtTicket(g, p.stepId) ==>
      |ApplyOutcome(t, g, id, p.answers, p.stepId, Engine.ReadyToSubmitTicket, env).tables.tickets| <= |t.tickets| + 1
  }

  /**
   * One call writes at most one ticket for its instance, wherever a conversation can take it and whatever the dispatch
   * results, exactly when no conversation stands at a ticket step that leads straight on to another.
   */
  lemma OneTicketPerCallIff(g: Graph)
    ensures OneTicketPerCall(g) <==> !ChainsTickets(g)
  {
    if ChainsTickets(g) {
      var talk, p :| Arrives(g, talk, p) && AtTicket(g, p.stepId) && TicketAt(g, p.stepId, p.answers, 1).Some?;
      ChainWritesTwo(g, talk, p);
    } else {
      forall t: Tables, id: Id, talk, p, env: Env | InstanceOf(t, id, g) && Arrives(g, talk, p) && AtTicket(g, p.stepId)
        ensures |ApplyOutcome(t, g, id, p.answers, p.stepId, Engine.ReadyToSubmitTicket, env).tables.tickets| <= |t.tickets| + 1
      {
        assert TicketAt(g, p.stepId, p.answers, 1).None?;
        SingleTicket(t, g, id, p.answers, p.stepId, env);
      }
    }
  }

  lemma ChainWritesTwo(g: Graph, talk: seq<Input>, p: Position)
    requires Arrives(g, talk, p) && AtTicket(g, p.stepId) && TicketAt(g, p.stepId, p.answers, 1).Some?
    ensures !OneTicketPerCall(g)
  {
    var row := Instance(0, 0, InstanceStatus.InProgress, p.stepId, p.answers, None);
    var t, env := Tables(map[], map[0 := g], map[0 := row], map[], []), Env(0, 0, 0, None, Deliveries(2));
    LoopFollowsChain(t, g, 0, p.answers, p.stepId, env, 2);
    assert env.(dispatches := Deliveries(2)) == env;
    var t' := ApplyOutcome(t, g, 0, p.answers, p.stepId, Engine.ReadyToSubmitTicket, env).tables;
    assert RunWith(t, g, 0, p.answers, p.stepId, env, 2).tables == t';
    assert TicketAt(g, p.stepId, p.answers, 0).Some?;
    assert |t'.tickets| >= 2 && InstanceOf(t, 0, g);
  }

  lemma SingleTicket(t: Tables, g: Graph, id: Id, answers: Answers, stepId: StepId, env: Env)
    requires AtTicket(g, stepId) && TicketAt(g, stepId, answers, 1).None?
    ensures |ApplyOutcome(t, g, id, answers, stepId, Engine.ReadyToSubmitTicket, env).tables.tickets| <= |t.tickets| + 1
  {
    var r := Engine.ResumeAfterTicketDispatch(g, stepId, answers);
    assert r.Ok? && r.outcome.ReadyToSubmitTicket? ==> TicketAt(g, stepId, answers, 1) == TicketAt(g, r.stepId, answers, 0);
  }
}
