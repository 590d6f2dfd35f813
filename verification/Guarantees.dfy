/** What holds over every run of the protocol, for any number of requests, deciders and pollers. */
module Guarantees {
  import opened Workflow
  import Engine
  import opened Tables
  import opened Orchestrator
  import opened Calls
  import opened Protocol
  import opened ProtocolSteps

  lemma ReachableInv(w: World, actions: seq<Action>)
    requires Initial(w) && Legal(w, actions)
    ensures Inv(Run(w, actions))
  {
    InitialInv(w);
    RunKeeps(w, actions);
  }

  /**
   * However deciders and pollers interleave: no approval is resumed twice, each resumption carries the decision its
   * row ended up with, an expiry was only stored after the deadline, and a decision not yet resumed has exactly one
   * process that will resume it.
   */
  lemma RaceIsSafe(w: World, actions: seq<Action>)
    requires Initial(w) && Legal(w, actions)
    ensures var end := Run(w, actions);
            && (forall j, k :: 0 <= j < k < |end.resumed| ==> end.resumed[j].approval != end.resumed[k].approval)
            && (forall k :: 0 <= k < |end.resumed| ==>
                  end.resumed[k].approval in end.tables.approvals
                  && Matches(end.tables.approvals[end.resumed[k].approval].status, end.resumed[k].decision))
            && (forall a :: a in end.tables.approvals && end.tables.approvals[a].status.Expired? ==>
                  && end.tables.approvals[a].expiresAt.Some? && end.tables.approvals[a].decidedAt.Some?
                  && end.tables.approvals[a].expiresAt.value <= end.tables.approvals[a].decidedAt.value <= end.clock)
            && (forall a :: a in end.tables.approvals && !end.tables.approvals[a].status.Pending? && !WasResumed(end, a) ==>
                  exists p :: p in end.procs && Held(end.procs[p]) == Some(a)
                              && forall q :: q in end.procs && Held(end.procs[q]) == Some(a) ==> q == p)
  {
    ReachableInv(w, actions);
    var end := Run(w, actions);
    forall a | a in end.tables.approvals && !end.tables.approvals[a].status.Pending? && !WasResumed(end, a)
      ensures exists p :: p in end.procs && Held(end.procs[p]) == Some(a)
                          && forall q :: q in end.procs && Held(end.procs[q]) == Some(a) ==> q == p
    {
      assert Open(end, a) && IsHeld(end, a);
      var p :| p in end.procs && Held(end.procs[p]) == Some(a);
      assert forall q :: q in end.procs && Held(end.procs[q]) == Some(a) ==> q == p;
    }
  }

  /**
   * At any moment an instance has at most one approval that is pending or awaiting resumption, and then it is awaiting
   * approval at that approval's step: resuming from the approval's step is resuming from the instance's own.
   */
  lemma OpenApprovalStandsAtStep(w: World, actions: seq<Action>, a: Id)
    requires Initial(w) && Legal(w, actions) && Open(Run(w, actions), a)
    ensures var t := Run(w, actions).tables;
            && t.approvals[a].instanceId in t.instances
            && t.instances[t.approvals[a].instanceId].status == InstanceStatus.AwaitingApproval
            && t.instances[t.approvals[a].instanceId].stepId == t.approvals[a].stepId
            && forall b :: Open(Run(w, actions), b) && t.approvals[b].instanceId == t.approvals[a].instanceId ==> b == a
  {
    ReachableInv(w, actions);
    var end := Run(w, actions);
    assert OpenPlaced(end, a);
    forall b | Open(end, b) && end.tables.approvals[b].instanceId == end.tables.approvals[a].instanceId ensures b == a {
      assert SameInstance(end.tables, a, b);
    }
  }

  /** Who wins the compare-and-set stores the whole decision, comment and time included; who loses it changes nothing. */
  lemma WinnerIsStored(w: World, pid: nat, listing: seq<Id>, env: Env)
    requires Enabled(w, Proceed(pid, listing, env))
    ensures var t, t' := w.tables, Advanced(w, pid, listing, env).tables;
            match w.procs[pid]
            case DeciderFlipping(a, decision, comment) =>
              if a in t.approvals && t.approvals[a].status.Pending?
              then t' == t.(approvals := t.approvals[a := t.approvals[a].(
                     status := if decision.Approve? then ApprovalStatus.Approved else ApprovalStatus.Rejected,
                     comment := comment, decidedAt := Some(w.clock))])
              else t' == t
            case PollerFlipping(queue) =>
              if queue != [] && queue[0].id in t.approvals && t.approvals[queue[0].id].status.Pending?
              then t' == t.(approvals := t.approvals[queue[0].id := t.approvals[queue[0].id].(
                     status := ApprovalStatus.Expired,
                     comment := Some("auto-expired: approval timeout reached"), decidedAt := Some(w.clock))])
              else t' == t
            case _ => true
  {
  }

  /** A decided row is never written again. */
  lemma DecidedStepFinal(w: World, action: Action, a: Id)
    requires Enabled(w, action) && a in w.tables.approvals && !w.tables.approvals[a].status.Pending?
    ensures a in Next(w, action).tables.approvals && Next(w, action).tables.approvals[a] == w.tables.approvals[a]
  {
    match action
    case StartRequest(itemId, requester, env) => StartEffect(w.tables, itemId, requester, env);
    case AnswerQuestion(id, requester, key, value, env) => AnswerEffect(w.tables, id, requester, key, value, env);
    case Proceed(pid, listing, env) =>
      ProceedTables(w, pid, listing, env);
      if Resuming(w.procs[pid]) {
        ResumeEffect(w.tables, w.procs[pid].row.instanceId, w.procs[pid].row.stepId, HeldDecision(w.procs[pid]), env);
      }
    case _ =>
  }

  lemma {:induction false} DecidedIsFinal(w: World, actions: seq<Action>, a: Id)
    requires Legal(w, actions) && a in w.tables.approvals && !w.tables.approvals[a].status.Pending?
    ensures a in Run(w, actions).tables.approvals && Run(w, actions).tables.approvals[a] == w.tables.approvals[a]
    decreases |actions|
  {
    if actions != [] {
      DecidedStepFinal(w, actions[0], a);
      DecidedIsFinal(Next(w, actions[0]), actions[1..], a);
    }
  }

  /** Nothing can move this instance: no open approval, and no question it is waiting to have answered. */
  ghost predicate Stuck(w: World, id: Id) {
    && id in w.tables.instances
    && (forall a :: Open(w, a) ==> w.tables.approvals[a].instanceId != id)
    && (w.tables.instances[id].status == InstanceStatus.InProgress ==> !AsksQuestion(w.tables, id))
  }

  ghost predicate AsksQuestion(t: Tables, id: Id) {
    && id in t.instances && t.instances[id].definitionId in t.definitions
    && var found := t.definitions[t.instances[id].definitionId].Find(t.instances[id].stepId);
       found.Some? && found.value.kind.Question?
  }

  /** Nothing about the instance differs: neither its row, nor its tickets, nor its approvals. */
  ghost predicate Untouched(t: Tables, t': Tables, id: Id) {
    && id in t.instances && id in t'.instances && t'.instances[id] == t.instances[id]
    && TicketsOf(t'.tickets, id) == TicketsOf(t.tickets, id)
    && (forall a :: a in t.approvals ==> a in t'.approvals && t'.approvals[a].instanceId == t.approvals[a].instanceId)
    && (forall a :: a in t'.approvals && t'.approvals[a].instanceId == id ==> a in t.approvals && t'.approvals[a] == t.approvals[a])
    && (forall d :: d in t.definitions ==> d in t'.definitions && t'.definitions[d] == t.definitions[d])
  }

  function TicketsOf(tickets: seq<Ticket>, id: Id): seq<Ticket> {
    if tickets == [] then []
    else
      var last := tickets[|tickets| - 1];
      var before := TicketsOf(tickets[..|tickets| - 1], id);
      if last.instanceId == id then before + [last] else before
  }

  lemma {:induction false} OtherTickets(tickets: seq<Ticket>, tickets': seq<Ticket>, id: Id)
    requires |tickets| <= |tickets'| && tickets'[..|tickets|] == tickets
    requires forall k :: |tickets| <= k < |tickets'| ==> tickets'[k].instanceId != id
    ensures TicketsOf(tickets', id) == TicketsOf(tickets, id)
    decreases |tickets'|
  {
    if |tickets| < |tickets'| {
      var shorter := tickets'[..|tickets'| - 1];
      assert shorter[..|tickets|] == tickets'[..|tickets|];
      OtherTickets(tickets, shorter, id);
    } else {
      assert tickets' == tickets'[..|tickets|];
    }
  }

  /** A call on another instance leaves this one untouched. */
  lemma OtherCallUntouched(t: Tables, g: Graph, other: Id, answers: Answers, env: Env, a: Applied, id: Id)
    requires Effect(t, g, other, answers, env, a) && id in t.instances && id != other
    requires env.approvalId !in t.approvals
    ensures Untouched(t, a.tables, id)
  {
    OtherTickets(t.tickets, a.tables.tickets, id);
  }

  lemma UntouchedTransitive(t: Tables, t1: Tables, t2: Tables, id: Id)
    requires Untouched(t, t1, id) && Untouched(t1, t2, id)
    ensures Untouched(t, t2, id)
  {
  }

  /** An answer to a stuck instance is refused without a trace. */
  lemma StuckRefusesAnswer(w: World, id: Id, requester: Id, key: string, value: Json, env: Env)
    requires Inv(w) && Stuck(w, id)
    ensures SubmitAnswer(w.tables, id, requester, key, value, env).tables == w.tables
  {
  }

  lemma StuckThroughResume(w: World, pid: nat, a: Id, row: Approval, decision: ApprovalDecision, proc: Proc, env: Env, id: Id)
    requires Inv(w) && Drawn(w, env) && MayResume(w, pid, a, row, decision, proc) && Stuck(w, id)
    ensures Untouched(w.tables, Resumes(w, pid, a, row, decision, proc, env).tables, id)
  {
    ResumeCall(w, pid, a, row, decision, proc, env);
    OtherResumeUntouched(w, row.instanceId, row.stepId, decision, env, id);
  }

  lemma OtherAnswerUntouched(w: World, other: Id, requester: Id, key: string, value: Json, env: Env, i: Id)
    requires Inv(w) && Drawn(w, env) && i in w.tables.instances && other != i
    ensures Untouched(w.tables, SubmitAnswer(w.tables, other, requester, key, value, env).tables, i)
  {
    AnswerEffect(w.tables, other, requester, key, value, env);
    var result := SubmitAnswer(w.tables, other, requester, key, value, env);
    if result.tables != w.tables {
      OtherCallUntouched(w.tables, w.tables.definitions[w.tables.instances[other].definitionId], other,
                         w.tables.instances[other].answers[key := value], env, result, i);
    }
  }

  lemma OtherResumeUntouched(w: World, other: Id, stepId: StepId, decision: ApprovalDecision, env: Env, i: Id)
    requires Inv(w) && Drawn(w, env) && i in w.tables.instances && other != i
    ensures Untouched(w.tables, ResumeAfterApproval(w.tables, other, stepId, decision, env).tables, i)
  {
    ResumeEffect(w.tables, other, stepId, decision, env);
    var result := ResumeAfterApproval(w.tables, other, stepId, decision, env);
    if result.tables != w.tables {
      OtherCallUntouched(w.tables, w.tables.definitions[w.tables.instances[other].definitionId], other,
                         w.tables.instances[other].answers, env, result, i);
    }
  }

  /** A start leaves every other instance untouched. */
  lemma OtherStartUntouched(w: World, itemId: Id, requester: Id, env: Env, id: Id)
    requires Inv(w) && Drawn(w, env) && env.instanceId !in w.tables.instances && id in w.tables.instances
    ensures Untouched(w.tables, StartInstance(w.tables, itemId, requester, env).tables, id)
  {
    StartEffect(w.tables, itemId, requester, env);
    var result := StartInstance(w.tables, itemId, requester, env);
    if result.tables != w.tables {
      var d := w.tables.items[itemId].definitionId;
      var t1 := InsertInstance(w.tables, env.instanceId, d, requester, Engine.Start(w.tables.definitions[d]).stepId);
      OtherCallUntouched(t1, w.tables.definitions[d], env.instanceId, map[], env, result, id);
    }
  }

  lemma StuckThroughAnswer(w: World, other: Id, requester: Id, key: string, value: Json, env: Env, id: Id)
    requires Inv(w) && Drawn(w, env) && Stuck(w, id)
    ensures Untouched(w.tables, SubmitAnswer(w.tables, other, requester, key, value, env).tables, id)
  {
    if other == id {
      StuckRefusesAnswer(w, id, requester, key, value, env);
    } else {
      OtherAnswerUntouched(w, other, requester, key, value, env, id);
    }
  }

  /** Flipping touches an approval of this instance only if one is pending, and a stuck instance has none. */
  lemma StuckThroughFlip(w: World, a: Id, status: ApprovalStatus, comment: Option<string>, id: Id)
    requires Inv(w) && Stuck(w, id)
    ensures Untouched(w.tables, FlipApproval(w.tables, a, status, comment, w.clock), id)
  {
    if IsPending(w.tables, a) {
      PendingUntouched(w, a);
      assert Open(w, a);
    }
  }

  lemma StuckThroughProceed(w: World, pid: nat, listing: seq<Id>, env: Env, id: Id)
    requires Inv(w) && Enabled(w, Proceed(pid, listing, env)) && Stuck(w, id)
    ensures Untouched(w.tables, Advanced(w, pid, listing, env).tables, id)
  {
    ProceedTables(w, pid, listing, env);
    var proc := w.procs[pid];
    if Resuming(proc) {
      StuckThroughResume(w, pid, proc.approval, proc.row, HeldDecision(proc), AfterResuming(proc), env, id);
    } else if Flips(proc).Some? {
      var f := Flips(proc).value;
      StuckThroughFlip(w, f.approval, f.status, f.comment, id);
    }
  }

  lemma StuckStep(w: World, action: Action, id: Id)
    requires Inv(w) && Enabled(w, action) && Stuck(w, id)
    ensures Untouched(w.tables, Next(w, action).tables, id)
  {
    match action
    case StartRequest(itemId, requester, env) => OtherStartUntouched(w, itemId, requester, env, id);
    case AnswerQuestion(other, requester, key, value, env) => StuckThroughAnswer(w, other, requester, key, value, env, id);
    case Proceed(pid, listing, env) => StuckThroughProceed(w, pid, listing, env, id);
    case _ =>
  }

  /** The log of resumptions only grows. */
  lemma ResumedGrows(w: World, action: Action, a: Id)
    requires Enabled(w, action) && WasResumed(w, a)
    ensures WasResumed(Next(w, action), a)
  {
    var k :| 0 <= k < |w.resumed| && w.resumed[k].approval == a;
    assert Next(w, action).resumed[k] == w.resumed[k];
  }

  lemma StuckStays(w: World, action: Action, id: Id)
    requires Inv(w) && Enabled(w, action) && Stuck(w, id)
    ensures Stuck(Next(w, action), id)
  {
    StuckStep(w, action, id);
    var w' := Next(w, action);
    forall a | Open(w', a) ensures w'.tables.approvals[a].instanceId != id {
      if w'.tables.approvals[a].instanceId == id {
        assert a in w.tables.approvals && w.tables.approvals[a].instanceId == id;
        assert WasResumed(w, a);
        ResumedGrows(w, action, a);
      }
    }
  }

  /** Once stuck, always stuck: no later step of any run changes the instance or adds a ticket or an approval for it. */
  lemma {:induction false} StuckForever(w: World, actions: seq<Action>, id: Id)
    requires Inv(w) && Legal(w, actions) && Stuck(w, id)
    ensures Untouched(w.tables, Run(w, actions).tables, id)
    decreases |actions|
  {
    if actions != [] {
      StuckStep(w, actions[0], id);
      StuckStays(w, actions[0], id);
      StepKeeps(w, actions[0]);
      StuckForever(Next(w, actions[0]), actions[1..], id);
      UntouchedTransitive(w.tables, Next(w, actions[0]).tables, Run(w, actions).tables, id);
    }
  }

  lemma TerminalIsStuck(w: World, id: Id)
    requires Inv(w) && id in w.tables.instances && w.tables.instances[id].status.Terminal()
    ensures Stuck(w, id)
  {
    forall a | Open(w, a) ensures w.tables.approvals[a].instanceId != id {
      assert OpenPlaced(w, a);
    }
  }

  /** Completed, rejected, cancelled and failed absorb. */
  lemma TerminalAbsorbs(w: World, before: seq<Action>, after: seq<Action>, id: Id)
    requires Initial(w) && Legal(w, before)
    requires id in Run(w, before).tables.instances
    requires Run(w, before).tables.instances[id].status in
               {InstanceStatus.Completed, InstanceStatus.Rejected, InstanceStatus.Cancelled, InstanceStatus.Failed}
    requires Legal(Run(w, before), after)
    ensures Untouched(Run(w, before).tables, Run(Run(w, before), after).tables, id)
  {
    ReachableInv(w, before);
    TerminalIsStuck(Run(w, before), id);
    StuckForever(Run(w, before), after, id);
  }
}
