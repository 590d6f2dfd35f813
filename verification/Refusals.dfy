/** Calls that go wrong: what exactly makes them, what they leave behind, and what can still be done about it. */
module Refusals {
  import opened Workflow
  import Engine
  import Sessions
  import opened Conversations
  import opened Tables
  import opened Orchestrator
  import opened Calls
  import opened TicketLoop
  import opened Protocol
  import opened ProtocolSteps
  import opened Guarantees
  import opened Records
  import opened Tellings
  import opened Refinement

  predicate DeliveredFirst(ds: seq<Dispatch>, k: nat) {
    k <= |ds| && forall j :: 0 <= j < k ==> ds[j].Delivered?
  }

  /** From `p`, the first `k` dispatches are delivered and take the call to this position. */
  ghost predicate ComesTo(g: Graph, p: Position, ds: seq<Dispatch>, k: nat) {
    DeliveredFirst(ds, k) && Arrival(g, p, Dones(k)).Some?
  }

  /** There the call comes to a ticket that is not rendered or not delivered. */
  ghost predicate FailsAt(g: Graph, p: Position, ds: seq<Dispatch>, k: nat) {
    ComesTo(g, p, ds, k) && k < |ds| && !ds[k].Delivered? && AtTicket(g, Arrival(g, p, Dones(k)).value.stepId)
  }

  /** There the call comes to an approval. */
  ghost predicate AsksAt(g: Graph, p: Position, ds: seq<Dispatch>, k: nat) {
    && ComesTo(g, p, ds, k)
    && var q := Arrival(g, p, Dones(k)).value; g.Find(q.stepId).Some? && KindAt(g, q).WaitForApproval?
  }

  lemma CallComesTo(t: Tables, g: Graph, id: Id, p: Position, env: Env, k: nat)
    requires Standing(g, p) && ComesTo(g, p, env.dispatches, k)
    ensures Standing(g, Arrival(g, p, Dones(k)).value)
    ensures Applying(t, g, id, p, env)
         == Applying(Delivering(t, g, id, p, k), g, id, Arrival(g, p, Dones(k)).value, env.(dispatches := env.dispatches[k..]))
  {
    ServeTickets(t, g, id, p, env, k, env.dispatches[k..]);
    assert Deliveries(k) + env.dispatches[k..] == env.dispatches;
    assert env.(dispatches := env.dispatches) == env;
  }

  /** All that a failing dispatch leaves: the delivered tickets, its own row if it was rendered, and a failed instance. */
  lemma FailureLeaves(t: Tables, g: Graph, id: Id, p: Position, env: Env, k: nat)
    requires Standing(g, p) && FailsAt(g, p, env.dispatches, k)
    ensures var q, d := Arrival(g, p, Dones(k)).value, env.dispatches[k];
            var a := Applying(t, g, id, p, env);
            && a.reply == Refused(if d.NotRendered? then Internal else DispatchFailure)
            && a.tables.tickets == Delivering(t, g, id, p, k).tickets + (if d.NotRendered? then [] else [Ticket(id, q.stepId, false)])
            && a.tables.instances == (if id !in t.instances then t.instances else t.instances[id :=
                 t.instances[id].(stepId := q.stepId, answers := p.answers, status := InstanceStatus.Failed, completedAt := Some(env.now))])
            && a.tables.approvals == t.approvals && a.tables.items == t.items && a.tables.definitions == t.definitions
  {
    CallComesTo(t, g, id, p, env, k);
    DonesDecideNothing(g, p, k);
    assert env.dispatches[k..][0] == env.dispatches[k];
  }

  lemma FailsAtNext(g: Graph, p: Position, ds: seq<Dispatch>, k: nat)
    requires ds != [] && ds[0].Delivered? && Moved(g, p, Sessions.TicketDone).Some?
    ensures ComesTo(g, p, ds, k + 1) <==> ComesTo(g, Moved(g, p, Sessions.TicketDone).value, ds[1..], k)
    ensures Arrival(g, p, Dones(k + 1)) == Arrival(g, Moved(g, p, Sessions.TicketDone).value, Dones(k))
  {
    DonesUnfold(k + 1);
    if DeliveredFirst(ds, k + 1) {
      assert forall j :: 0 <= j < k ==> ds[1..][j] == ds[j + 1];
    }
    if DeliveredFirst(ds[1..], k) {
      assert forall j :: 1 <= j < k + 1 ==> ds[j] == ds[1..][j - 1];
    }
  }

  /** A call that was refused for a ticket or for an approver came to one. */
  lemma {:induction false} RefusalHasCause(t: Tables, g: Graph, id: Id, p: Position, env: Env) returns (k: nat)
    requires id in t.instances && Standing(g, p)
    ensures var a := Applying(t, g, id, p, env);
            && id in a.tables.instances
            && (t.instances[id].status != InstanceStatus.Failed && a.tables.instances[id].status == InstanceStatus.Failed ==>
                  FailsAt(g, p, env.dispatches, k))
            && (a.reply == Refused(ApprovalFailure) ==> env.approver.None? && AsksAt(g, p, env.dispatches, k))
    decreases |env.dispatches|
  {
    k := 0;
    var r := Engine.ResumeAfterTicketDispatch(g, p.stepId, p.answers);
    if KindAt(g, p).SubmitTicket? && env.dispatches != [] && env.dispatches[0].Delivered? && r.Ok? {
      MovedStands(g, p, Sessions.TicketDone);
      var p1 := Moved(g, p, Sessions.TicketDone).value;
      var rest := env.(dispatches := env.dispatches[1..]);
      k := RefusalHasCause(WithTicket(t, id, p.stepId, Delivered), g, id, p1, rest);
      FailsAtNext(g, p, env.dispatches, k);
      k := k + 1;
    } else {
      assert Arrival(g, p, Dones(0)) == Some(p);
    }
  }

  /** A call fails its instance exactly when its deliveries take it to a ticket that is not rendered or not delivered. */
  lemma FailsIffDispatchFails(t: Tables, g: Graph, id: Id, p: Position, env: Env)
    requires id in t.instances && t.instances[id].status != InstanceStatus.Failed && Standing(g, p)
    ensures var t' := Applying(t, g, id, p, env).tables;
            && id in t'.instances
            && (t'.instances[id].status == InstanceStatus.Failed <==> exists k: nat :: FailsAt(g, p, env.dispatches, k))
  {
    var cause := RefusalHasCause(t, g, id, p, env);
    if k: nat :| FailsAt(g, p, env.dispatches, k) {
      FailureLeaves(t, g, id, p, env, k);
    }
  }

  /**
   * The graph model's documentation says an approver who cannot be resolved fails the instance. All that happens is
   * that the tickets delivered on the way remain: no row changes and no approval is opened.
   */
  lemma UnresolvedApproverChangesNoRow(t: Tables, g: Graph, id: Id, p: Position, env: Env, k: nat)
    requires Standing(g, p) && env.approver.None? && AsksAt(g, p, env.dispatches, k)
    ensures Applying(t, g, id, p, env) == Applied(Delivering(t, g, id, p, k), Refused(ApprovalFailure))
  {
    CallComesTo(t, g, id, p, env, k);
  }

  /** And a call is refused for want of an approver exactly when its deliveries take it to an approval without one. */
  lemma RefusedForApproverIff(t: Tables, g: Graph, id: Id, p: Position, env: Env)
    requires id in t.instances && Standing(g, p)
    ensures Applying(t, g, id, p, env).reply == Refused(ApprovalFailure) <==>
            env.approver.None? && exists k: nat :: AsksAt(g, p, env.dispatches, k)
  {
    var cause := RefusalHasCause(t, g, id, p, env);
    if k: nat :| env.approver.None? && AsksAt(g, p, env.dispatches, k) {
      UnresolvedApproverChangesNoRow(t, g, id, p, env, k);
    }
  }

  /** After a resumption that strands the instance: awaiting an approval nobody can give, it never moves again. */
  lemma UnresolvedApproverStrands(w: World, pid: nat, a: Id, row: Approval, decision: ApprovalDecision, proc: Proc, env: Env,
                                  g: Graph, k: nat, after: seq<Action>)
    requires Inv(w) && Drawn(w, env) && MayResume(w, pid, a, row, decision, proc) && InstanceOf(w.tables, row.instanceId, g)
    requires var next := Moved(g, PositionOf(w.tables.instances[row.instanceId]), Sessions.Decide(decision));
             env.approver.None? && next.Some? && AsksAt(g, next.value, env.dispatches, k)
    requires Legal(Resumes(w, pid, a, row, decision, proc, env), after)
    ensures var w' := Resumes(w, pid, a, row, decision, proc, env);
            var id := row.instanceId;
            && w'.tables.instances == w.tables.instances && w.tables.instances[id].status == InstanceStatus.AwaitingApproval
            && Untouched(w'.tables, Run(w', after).tables, id)
  {
    var w' := Resumes(w, pid, a, row, decision, proc, env);
    var id := row.instanceId;
    HolderStands(w, pid, a, row, decision, proc);
    var at := PositionOf(w.tables.instances[id]);
    MovedStands(g, at, Sessions.Decide(decision));
    UnresolvedApproverChangesNoRow(w.tables, g, id, Moved(g, at, Sessions.Decide(decision)).value, env, k);
    ResumedIsStuck(w, pid, a, row, decision, proc, env);
    ResumeKeeps(w, pid, a, row, decision, proc, env);
    HolderAwaits(w, pid, a, row, decision, proc);
    StuckForever(w', after, id);
  }

  lemma HolderAwaits(w: World, pid: nat, a: Id, row: Approval, decision: ApprovalDecision, proc: Proc)
    requires Inv(w) && MayResume(w, pid, a, row, decision, proc)
    ensures row.instanceId in w.tables.instances
    ensures w.tables.instances[row.instanceId].status == InstanceStatus.AwaitingApproval
  {
    assert HolderRight(w, w.procs[pid]);
    assert Open(w, a) && OpenPlaced(w, a);
  }

  /** So it does after a start: the row inserted for it stays in progress at a step that asks no question. */
  lemma UnresolvedStartStrands(w: World, itemId: Id, requester: Id, env: Env, g: Graph, k: nat, after: seq<Action>)
    requires Inv(w) && Enabled(w, StartRequest(itemId, requester, env))
    requires itemId in w.tables.items && w.tables.items[itemId].active
    requires var d := w.tables.items[itemId].definitionId; d in w.tables.definitions && w.tables.definitions[d] == g
    requires env.approver.None? && Engine.Start(g).Ok? && AsksAt(g, StartAt(g), env.dispatches, k)
    requires Legal(Next(w, StartRequest(itemId, requester, env)), after)
    ensures var w' := Next(w, StartRequest(itemId, requester, env));
            var id := env.instanceId;
            && id in w'.tables.instances && w'.tables.instances[id].status == InstanceStatus.InProgress
            && PositionOf(w'.tables.instances[id]) == StartAt(g)
            && Untouched(w'.tables, Run(w', after).tables, id)
  {
    var action := StartRequest(itemId, requester, env);
    var w', id := Next(w, action), env.instanceId;
    StartStands(g);
    var t1 := InsertInstance(w.tables, id, w.tables.items[itemId].definitionId, requester, Engine.Start(g).stepId);
    UnresolvedApproverChangesNoRow(t1, g, id, StartAt(g), env, k);
    StartBreaksOff(w, w'.tables, t1, g, id, k, []);
    StepKeeps(w, action);
    StuckForever(w', after, id);
  }

  /**
   * After an answer it strands nobody: the question stays open, and the same answer is accepted once an approver can be
   * found. But the tickets are sent again.
   */
  lemma UnresolvedAnswerCanBeRepeated(t: Tables, id: Id, key: string, value: Json, env: Env, again: Env, g: Graph, k: nat)
    requires InstanceOf(t, id, g) && t.instances[id].status == InstanceStatus.InProgress
    requires var next := Moved(g, PositionOf(t.instances[id]), Sessions.Answer(key, value));
             env.approver.None? && next.Some? && AsksAt(g, next.value, env.dispatches, k)
    requires again.approver.Some? && DeliveredFirst(again.dispatches, k)
    ensures var requester := t.instances[id].requester;
            var p := Moved(g, PositionOf(t.instances[id]), Sessions.Answer(key, value)).value;
            var first := SubmitAnswer(t, id, requester, key, value, env);
            var second := SubmitAnswer(first.tables, id, requester, key, value, again);
            && first == Applied(Delivering(t, g, id, p, k), Refused(ApprovalFailure))
            && second.reply.Done? && second.reply.row.status == InstanceStatus.AwaitingApproval
            && PositionOf(second.reply.row) == Arrival(g, p, Dones(k)).value
            && second.tables.tickets == Delivering(Delivering(t, g, id, p, k), g, id, p, k).tickets
  {
    var x := Sessions.Answer(key, value);
    var p := Moved(g, PositionOf(t.instances[id]), x).value;
    MovedStands(g, PositionOf(t.instances[id]), x);
    UnresolvedApproverChangesNoRow(t, g, id, p, env, k);
    CallComesTo(Delivering(t, g, id, p, k), g, id, p, again, k);
    DonesDecideNothing(g, p, k);
  }

  /** What a refused call leaves: some tickets, no approval, and its own row as it was or failed at a ticket step. */
  ghost predicate RefusalLeaves(t: Tables, t': Tables, g: Graph, id: Id, p: Position, m: nat, extra: seq<Ticket>) {
    && id in t.instances && id in t'.instances && Arrival(g, p, Dones(m)).Some?
    && var q, row := Arrival(g, p, Dones(m)).value, t'.instances[id];
       && t' == t.(instances := t.instances[id := row], tickets := t.tickets + Sent(id, Visits(g, p, Dones(m))) + extra)
       && (|extra| == 1 ==> extra[0].instanceId == id && extra[0].stepId == q.stepId && AtTicket(g, q.stepId)) && |extra| <= 1
       && (|| row == t.instances[id]
           || (row.status == InstanceStatus.Failed && PositionOf(row) == q && AtTicket(g, q.stepId)))
  }

  lemma RefusedCallLeaves(t: Tables, g: Graph, id: Id, p: Position, env: Env) returns (m: nat, extra: seq<Ticket>)
    requires id in t.instances && Standing(g, p) && Applying(t, g, id, p, env).reply.Refused?
    ensures RefusalLeaves(t, Applying(t, g, id, p, env).tables, g, id, p, m, extra)
  {
    var a := Applying(t, g, id, p, env);
    var outcome := Engine.OutcomeOf(KindAt(g, p));
    m, extra := ApplyTells(t, g, id, p, env);
    ApplyEffect(t, g, id, p.answers, p.stepId, outcome, env);
    ApplyOpens(t, g, id, p.answers, p.stepId, outcome, env);
    assert a.tables.instances == t.instances[id := a.tables.instances[id]];
  }

  /** Whatever went wrong, a refused answer leaves no trace or what its conversation passed before it broke off. */
  lemma RefusedAnswerKeepsRow(t: Tables, id: Id, requester: Id, key: string, value: Json, env: Env)
    requires SubmitAnswer(t, id, requester, key, value, env).reply.Refused?
    ensures var t' := SubmitAnswer(t, id, requester, key, value, env).tables;
            || t' == t
            || (&& HasGraph(t, id)
                && var g := t.definitions[t.instances[id].definitionId];
                   var next := Moved(g, PositionOf(t.instances[id]), Sessions.Answer(key, value));
                   next.Some? && exists m, extra :: RefusalLeaves(t, t', g, id, next.value, m, extra))
  {
    var t' := SubmitAnswer(t, id, requester, key, value, env).tables;
    if t' != t {
      var g := t.definitions[t.instances[id].definitionId];
      var at, x := PositionOf(t.instances[id]), Sessions.Answer(key, value);
      MovedStands(g, at, x);
      var m, extra := RefusedCallLeaves(t, g, id, Moved(g, at, x).value, env);
    }
  }

  lemma RefusedResumeKeepsRow(t: Tables, id: Id, stepId: StepId, decision: ApprovalDecision, env: Env)
    requires ResumeAfterApproval(t, id, stepId, decision, env).reply.Refused?
    ensures var t' := ResumeAfterApproval(t, id, stepId, decision, env).tables;
            || t' == t
            || (&& HasGraph(t, id)
                && var g := t.definitions[t.instances[id].definitionId];
                   var next := Moved(g, Position(stepId, t.instances[id].answers), Sessions.Decide(decision));
                   next.Some? && exists m, extra :: RefusalLeaves(t, t', g, id, next.value, m, extra))
  {
    var t' := ResumeAfterApproval(t, id, stepId, decision, env).tables;
    if t' != t {
      var g := t.definitions[t.instances[id].definitionId];
      var at, x := Position(stepId, t.instances[id].answers), Sessions.Decide(decision);
      MovedStands(g, at, x);
      var m, extra := RefusedCallLeaves(t, g, id, Moved(g, at, x).value, env);
    }
  }
}
