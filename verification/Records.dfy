/** What the stored rows record beyond status and step: completion times and approval deadlines. */
module Records {
  import opened Workflow
  import Engine
  import BranchWalk
  import opened Tables
  import opened Orchestrator
  import opened Calls
  import opened Protocol
  import opened ProtocolSteps
  import opened Guarantees
  import opened Settlement

  /** The approval the step `s` asks for at `now`. */
  ghost predicate Opened(g: Graph, id: Id, s: StepId, approver: Id, now: Time, a: Approval) {
    && g.Find(s).Some? && g.Find(s).value.kind.WaitForApproval?
    && a.instanceId == id && a.stepId == s && a.approver == approver
    && a.status.Pending? && a.comment == None && a.decidedAt == None
    && (match g.Find(s).value.kind.timeout
        case None => a.expiresAt == None
        case Some(seconds) => a.expiresAt == Some(now + seconds))
  }

  /** A call opens an approval exactly when it reports that it now awaits one: the one its step and clock call for. */
  ghost predicate OpensWhatItAwaits(t: Tables, g: Graph, id: Id, env: Env, a: Applied) {
    if a.reply.Done? && a.reply.row.status == InstanceStatus.AwaitingApproval
    then
      && env.approver.Some? && env.approvalId in a.tables.approvals
      && a.tables.approvals == t.approvals[env.approvalId := a.tables.approvals[env.approvalId]]
      && Opened(g, id, a.reply.row.stepId, env.approver.value, env.now, a.tables.approvals[env.approvalId])
    else a.tables.approvals == t.approvals
  }

  lemma {:induction false} ApplyOpens(t: Tables, g: Graph, id: Id, answers: Answers, stepId: StepId, outcome: Engine.Outcome, env: Env)
    requires id in t.instances && Landed(g, stepId, outcome)
    ensures OpensWhatItAwaits(t, g, id, env, ApplyOutcome(t, g, id, answers, stepId, outcome, env))
    decreases |env.dispatches|
  {
    if outcome.ReadyToSubmitTicket? && env.dispatches != [] && env.dispatches[0].Delivered? {
      var r := Engine.ResumeAfterTicketDispatch(g, stepId, answers);
      if r.Ok? {
        BranchWalk.AdvanceLands(g, g.Find(stepId).value.kind.next, answers);
        ApplyOpens(WithTicket(t, id, stepId, Delivered), g, id, answers, r.stepId, r.outcome, env.(dispatches := env.dispatches[1..]));
      }
    }
  }

  /** The instance has a row and its row has a graph. */
  predicate HasGraph(t: Tables, id: Id) {
    id in t.instances && t.instances[id].definitionId in t.definitions
  }

  /** An answer opens an approval exactly when it reports awaiting one; a refused answer opens none. */
  lemma AnswerOpens(t: Tables, id: Id, requester: Id, key: string, value: Json, env: Env)
    ensures HasGraph(t, id) ==>
              OpensWhatItAwaits(t, t.definitions[t.instances[id].definitionId], id, env, SubmitAnswer(t, id, requester, key, value, env))
    ensures !HasGraph(t, id) ==> SubmitAnswer(t, id, requester, key, value, env).tables == t
  {
    if !HasGraph(t, id) {
      return;
    }
    var row := t.instances[id];
    var g := t.definitions[row.definitionId];
    var (r, answers) := Engine.SubmitAnswer(g, row.stepId, row.answers, key, value);
    if r.Ok? {
      BranchWalk.AdvanceLands(g, g.Find(row.stepId).value.kind.next, answers);
      ApplyOpens(t, g, id, answers, r.stepId, r.outcome, env);
    }
  }

  lemma ResumeOpens(t: Tables, id: Id, stepId: StepId, decision: ApprovalDecision, env: Env)
    ensures HasGraph(t, id) ==>
              OpensWhatItAwaits(t, t.definitions[t.instances[id].definitionId], id, env, ResumeAfterApproval(t, id, stepId, decision, env))
    ensures !HasGraph(t, id) ==> ResumeAfterApproval(t, id, stepId, decision, env).tables == t
  {
    if !HasGraph(t, id) {
      return;
    }
    var row := t.instances[id];
    var g := t.definitions[row.definitionId];
    var r := Engine.ResumeAfterApproval(g, stepId, row.answers, decision);
    if r.Ok? {
      var kind := g.Find(stepId).value.kind;
      BranchWalk.AdvanceLands(g, if decision.Approve? then kind.onApprove else kind.onReject, row.answers);
      ApplyOpens(t, g, id, row.answers, r.stepId, r.outcome, env);
    }
  }

  /** A row saved at `now` over `before`, or not saved at all. */
  predicate SavedOver(before: Instance, after: Instance, now: Time) {
    after == before || after.completedAt == if after.status.Terminal() then Some(now) else before.completedAt
  }

  lemma {:induction false} ApplyStamps(t: Tables, g: Graph, id: Id, answers: Answers, stepId: StepId, outcome: Engine.Outcome, env: Env)
    requires id in t.instances
    ensures var t' := ApplyOutcome(t, g, id, answers, stepId, outcome, env).tables;
            id in t'.instances && SavedOver(t.instances[id], t'.instances[id], env.now)
    decreases |env.dispatches|
  {
    if outcome.ReadyToSubmitTicket? && env.dispatches != [] && env.dispatches[0].Delivered? {
      var r := Engine.ResumeAfterTicketDispatch(g, stepId, answers);
      if r.Ok? {
        ApplyStamps(WithTicket(t, id, stepId, Delivered), g, id, answers, r.stepId, r.outcome, env.(dispatches := env.dispatches[1..]));
      }
    }
  }

  lemma AnswerStamps(t: Tables, id: Id, requester: Id, key: string, value: Json, env: Env, i: Id)
    requires i in t.instances
    ensures var t' := SubmitAnswer(t, id, requester, key, value, env).tables;
            i in t'.instances && SavedOver(t.instances[i], t'.instances[i], env.now)
  {
    AnswerEffect(t, id, requester, key, value, env);
    if id in t.instances && t.instances[id].definitionId in t.definitions {
      var row := t.instances[id];
      var g := t.definitions[row.definitionId];
      var (r, answers) := Engine.SubmitAnswer(g, row.stepId, row.answers, key, value);
      if r.Ok? {
        ApplyStamps(t, g, id, answers, r.stepId, r.outcome, env);
      }
    }
  }

  lemma ResumeStamps(t: Tables, id: Id, stepId: StepId, decision: ApprovalDecision, env: Env, i: Id)
    requires i in t.instances
    ensures var t' := ResumeAfterApproval(t, id, stepId, decision, env).tables;
            i in t'.instances && SavedOver(t.instances[i], t'.instances[i], env.now)
  {
    ResumeEffect(t, id, stepId, decision, env);
    if id in t.instances && t.instances[id].definitionId in t.definitions {
      var row := t.instances[id];
      var g := t.definitions[row.definitionId];
      var r := Engine.ResumeAfterApproval(g, stepId, row.answers, decision);
      if r.Ok? {
        ApplyStamps(t, g, id, row.answers, r.stepId, r.outcome, env);
      }
    }
  }

  /** What one step of the machine does to the completion time of an existing row. */
  lemma StepStamps(w: World, action: Action, i: Id)
    requires Enabled(w, action) && i in w.tables.instances
    ensures var t' := Next(w, action).tables;
            i in t'.instances && SavedOver(w.tables.instances[i], t'.instances[i], w.clock)
  {
    match action
    case StartRequest(itemId, requester, env) => StartEffect(w.tables, itemId, requester, env);
    case AnswerQuestion(id, requester, key, value, env) => AnswerStamps(w.tables, id, requester, key, value, env, i);
    case Proceed(pid, listing, env) =>
      ProceedTables(w, pid, listing, env);
      var proc := w.procs[pid];
      if Resuming(proc) {
        ResumeStamps(w.tables, proc.row.instanceId, proc.row.stepId, HeldDecision(proc), env, i);
      }
    case _ =>
  }

  /** Completed exactly when over, and not in the future. */
  predicate RowStamped(row: Instance, clock: Time) {
    && (row.status in {InstanceStatus.Completed, InstanceStatus.Rejected, InstanceStatus.Cancelled, InstanceStatus.Failed}
        <==> row.completedAt.Some?)
    && (row.completedAt.Some? ==> row.completedAt.value <= clock)
  }

  ghost predicate AllStamped(w: World) {
    forall i :: i in w.tables.instances ==> RowStamped(w.tables.instances[i], w.clock)
  }

  lemma StartStamps(w: World, itemId: Id, requester: Id, env: Env)
    requires Drawn(w, env) && env.instanceId !in w.tables.instances
    ensures var t' := StartInstance(w.tables, itemId, requester, env).tables;
            env.instanceId in t'.instances ==> RowStamped(t'.instances[env.instanceId], w.clock)
  {
    var t := w.tables;
    StartEffect(t, itemId, requester, env);
    if StartInstance(t, itemId, requester, env).tables != t {
      var d := t.items[itemId].definitionId;
      var r := Engine.Start(t.definitions[d]);
      ApplyStamps(InsertInstance(t, env.instanceId, d, requester, r.stepId), t.definitions[d], env.instanceId, map[], r.stepId, r.outcome, env);
    }
  }

  /** A row that was over stays as it was, and any other had no completion time to lose. */
  lemma StepKeepsStamp(w: World, action: Action, i: Id)
    requires Inv(w) && Enabled(w, action) && i in w.tables.instances && RowStamped(w.tables.instances[i], w.clock)
    ensures var t' := Next(w, action).tables;
            i in t'.instances && RowStamped(t'.instances[i], Next(w, action).clock)
  {
    StepStamps(w, action, i);
    ClockAdvances(w, action);
    if w.tables.instances[i].status.Terminal() {
      TerminalIsStuck(w, i);
      StuckStep(w, action, i);
    }
  }

  lemma ClockAdvances(w: World, action: Action)
    requires Enabled(w, action)
    ensures w.clock <= Next(w, action).clock
  {
  }

  lemma {:induction false} RunStamped(w: World, actions: seq<Action>)
    requires Inv(w) && Legal(w, actions) && AllStamped(w)
    ensures AllStamped(Run(w, actions))
    decreases |actions|
  {
    if actions != [] {
      var w' := Next(w, actions[0]);
      forall i | i in w'.tables.instances ensures RowStamped(w'.tables.instances[i], w'.clock) {
        if i in w.tables.instances {
          StepKeepsStamp(w, actions[0], i);
        } else {
          NewInstanceIsStarted(w, actions[0], i);
          StartStamps(w, actions[0].itemId, actions[0].requester, actions[0].env);
        }
      }
      StepKeeps(w, actions[0]);
      RunStamped(w', actions[1..]);
    }
  }

  /** In every reachable state a request has a completion time exactly when it is over, and never one yet to come. */
  lemma CompletedExactlyWhenOver(w: World, actions: seq<Action>)
    requires Initial(w) && Legal(w, actions)
    ensures AllStamped(Run(w, actions))
  {
    InitialInv(w);
    RunStamped(w, actions);
  }
}
