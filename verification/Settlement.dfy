/** How the stored status relates to the kind of the current step. */
module Settlement {
  import opened Workflow
  import Engine
  import BranchWalk
  import opened Tables
  import opened Orchestrator
  import opened Calls
  import opened Protocol
  import opened ProtocolSteps
  import opened Guarantees
  import opened Provenance

  /**
   * What the status says about the step in any graph and after any failure. Only an instance whose start broke off
   * after its row was inserted is in progress away from a question.
   */
  ghost predicate Fits(g: Graph, row: Instance) {
    || Agrees(g, row)
    || (&& row.status == InstanceStatus.InProgress && g.Find(row.stepId).Some?
        && (g.Find(row.stepId).value.kind.WaitForApproval? || g.Find(row.stepId).value.kind.SubmitTicket?))
  }

  ghost predicate RowFits(t: Tables, i: Id)
    requires i in t.instances
  {
    t.instances[i].definitionId in t.definitions && Fits(t.definitions[t.instances[i].definitionId], t.instances[i])
  }

  ghost predicate RowAgrees(t: Tables, i: Id)
    requires i in t.instances
  {
    t.instances[i].definitionId in t.definitions && Agrees(t.definitions[t.instances[i].definitionId], t.instances[i])
  }

  /** A call moves its row to agreement, to failure at a ticket, or not at all. */
  lemma EffectAgrees(t: Tables, g: Graph, id: Id, answers: Answers, env: Env, a: Applied)
    requires Effect(t, g, id, answers, env, a)
    ensures a.tables.instances[id] == t.instances[id] || Agrees(g, a.tables.instances[id])
  {
  }

  /** A row just inserted by a start either ends up agreeing or keeps a fitting position. */
  lemma {:induction false} FreshRowFits(t: Tables, g: Graph, id: Id, stepId: StepId, outcome: Engine.Outcome, env: Env)
    requires id in t.instances && Landed(g, stepId, outcome)
    requires t.instances[id].status == InstanceStatus.InProgress && t.instances[id].stepId == stepId
    ensures var t' := ApplyOutcome(t, g, id, map[], stepId, outcome, env).tables; id in t'.instances && Fits(g, t'.instances[id])
  {
    ApplyEffect(t, g, id, map[], stepId, outcome, env);
    EffectAgrees(t, g, id, map[], env, ApplyOutcome(t, g, id, map[], stepId, outcome, env));
  }

  /** Nothing a process does to its own instance or to others breaks the fit of a row that fits. */
  lemma StepFits(w: World, action: Action, i: Id)
    requires Enabled(w, action) && i in w.tables.instances && RowFits(w.tables, i)
    ensures i in Next(w, action).tables.instances && RowFits(Next(w, action).tables, i)
    ensures RowAgrees(w.tables, i) ==> RowAgrees(Next(w, action).tables, i)
  {
    var t := w.tables;
    match action
    case StartRequest(itemId, requester, env) => StartEffect(t, itemId, requester, env);
    case AnswerQuestion(id, requester, key, value, env) =>
      AnswerEffect(t, id, requester, key, value, env);
      var a := SubmitAnswer(t, id, requester, key, value, env);
      if id == i && a.tables != t {
        EffectAgrees(t, t.definitions[t.instances[id].definitionId], id, t.instances[id].answers[key := value], env, a);
      }
    case Proceed(pid, listing, env) =>
      ProceedTables(w, pid, listing, env);
      var proc := w.procs[pid];
      if Resuming(proc) {
        ResumedRowFits(w, proc.row.instanceId, proc.row.stepId, HeldDecision(proc), env, i);
      }
    case _ =>
  }

  lemma ResumedRowFits(w: World, id: Id, stepId: StepId, decision: ApprovalDecision, env: Env, i: Id)
    requires i in w.tables.instances && RowFits(w.tables, i)
    ensures var t' := ResumeAfterApproval(w.tables, id, stepId, decision, env).tables;
            && i in t'.instances && RowFits(t', i)
            && (RowAgrees(w.tables, i) ==> RowAgrees(t', i))
  {
    var t := w.tables;
    ResumeEffect(t, id, stepId, decision, env);
    var a := ResumeAfterApproval(t, id, stepId, decision, env);
    if id == i && a.tables != t {
      EffectAgrees(t, t.definitions[t.instances[id].definitionId], id, t.instances[id].answers, env, a);
    }
  }

  lemma StartedFits(w: World, itemId: Id, requester: Id, env: Env)
    requires Inv(w) && Drawn(w, env) && env.instanceId !in w.tables.instances
    ensures var t' := StartInstance(w.tables, itemId, requester, env).tables;
            env.instanceId in t'.instances ==> RowFits(t', env.instanceId)
  {
    var t := w.tables;
    StartEffect(t, itemId, requester, env);
    if StartInstance(t, itemId, requester, env).tables != t {
      var d := t.items[itemId].definitionId;
      var r := Engine.Start(t.definitions[d]);
      FreshRowFits(InsertInstance(t, env.instanceId, d, requester, r.stepId), t.definitions[d], env.instanceId, r.stepId, r.outcome, env);
    }
  }

  /** The only step that adds an instance is a start, and it adds the one it drew the id for. */
  lemma NewInstanceIsStarted(w: World, action: Action, i: Id)
    requires Enabled(w, action) && i in Next(w, action).tables.instances && i !in w.tables.instances
    ensures action.StartRequest? && i == action.env.instanceId
  {
    var t := w.tables;
    match action
    case StartRequest(itemId, requester, env) => StartEffect(t, itemId, requester, env);
    case AnswerQuestion(id, requester, key, value, env) => AnswerEffect(t, id, requester, key, value, env);
    case Proceed(pid, listing, env) =>
      ProceedTables(w, pid, listing, env);
      var proc := w.procs[pid];
      if Resuming(proc) {
        ResumeEffect(t, proc.row.instanceId, proc.row.stepId, HeldDecision(proc), env);
      }
    case _ =>
  }

  ghost predicate AllFit(t: Tables) {
    forall i :: i in t.instances ==> RowFits(t, i)
  }

  lemma {:induction false} RunFits(w: World, actions: seq<Action>)
    requires Inv(w) && Legal(w, actions) && AllFit(w.tables)
    ensures AllFit(Run(w, actions).tables)
    decreases |actions|
  {
    if actions != [] {
      var w' := Next(w, actions[0]);
      forall i | i in w'.tables.instances ensures RowFits(w'.tables, i) {
        if i in w.tables.instances {
          StepFits(w, actions[0], i);
        } else {
          NewInstanceIsStarted(w, actions[0], i);
          StartedFits(w, actions[0].itemId, actions[0].requester, actions[0].env);
        }
      }
      StepKeeps(w, actions[0]);
      RunFits(w', actions[1..]);
    }
  }

  /** In every reachable state of every run, over any graphs and any failures, every status fits its step. */
  lemma StatusFitsStep(w: World, actions: seq<Action>)
    requires Initial(w) && Legal(w, actions)
    ensures AllFit(Run(w, actions).tables)
  {
    InitialInv(w);
    RunFits(w, actions);
  }

  /** Closed, and no branch walk hits the engine's bound. */
  ghost predicate Sound(g: Graph) {
    && Closed(g)
    && forall s: StepId, answers: Answers :: Engine.Advance(g, s, answers) != Engine.Err(Engine.TooManySteps(Engine.MAX_AUTO_STEPS))
  }

  lemma {:induction false} SoundAdvances(g: Graph, s: StepId, answers: Answers, fuel: nat)
    requires Closed(g) && g.Find(s).Some? && Engine.AdvanceWithin(g, s, answers, fuel).Err?
    ensures Engine.AdvanceWithin(g, s, answers, fuel) == Engine.Err(Engine.TooManySteps(Engine.MAX_AUTO_STEPS))
    decreases fuel
  {
    if fuel > 0 && g.Find(s).value.kind.Branch? {
      var target := Engine.BranchTarget(g.Find(s).value.kind, answers);
      ClosedTargets(g, s, target);
      SoundAdvances(g, target, answers, fuel - 1);
    }
  }

  /** In a sound graph the engine always finds a way on from a ticket. */
  lemma SoundResumes(g: Graph, stepId: StepId, answers: Answers)
    requires Sound(g) && AtTicket(g, stepId)
    ensures var r := Engine.ResumeAfterTicketDispatch(g, stepId, answers); r.Ok? && Landed(g, r.stepId, r.outcome)
  {
    var next := g.Find(stepId).value.kind.next;
    ClosedTargets(g, stepId, next);
    BranchWalk.AdvanceLands(g, next, answers);
    if Engine.Advance(g, next, answers).Err? {
      SoundAdvances(g, next, answers, Engine.MAX_AUTO_STEPS);
    }
  }

  /** In a sound graph an outcome is only ever refused by a failed dispatch, which is recorded as such. */
  lemma {:induction false} SoundCallSettles(t: Tables, g: Graph, id: Id, answers: Answers, stepId: StepId, outcome: Engine.Outcome, env: Env)
    requires id in t.instances && Landed(g, stepId, outcome) && Sound(g) && env.approver.Some?
    requires !ApplyOutcome(t, g, id, answers, stepId, outcome, env).reply.Running?
    ensures var t' := ApplyOutcome(t, g, id, answers, stepId, outcome, env).tables; id in t'.instances && Agrees(g, t'.instances[id])
    decreases |env.dispatches|
  {
    if outcome.ReadyToSubmitTicket? && env.dispatches[0].Delivered? {
      SoundResumes(g, stepId, answers);
      var r := Engine.ResumeAfterTicketDispatch(g, stepId, answers);
      var t1, rest := WithTicket(t, id, stepId, Delivered), env.(dispatches := env.dispatches[1..]);
      SoundCallSettles(t1, g, id, answers, r.stepId, r.outcome, rest);
    } else {
      ApplyEffect(t, g, id, answers, stepId, outcome, env);
    }
  }

  /** Every start of the run uses a sound graph, resolves its approver and returns. Nothing is asked of other steps. */
  ghost predicate SoundStart(w: World, action: Action) {
    action.StartRequest? ==>
      && action.env.approver.Some?
      && (action.itemId in w.tables.items && w.tables.items[action.itemId].definitionId in w.tables.definitions ==>
            Sound(w.tables.definitions[w.tables.items[action.itemId].definitionId]))
      && !StartInstance(w.tables, action.itemId, action.requester, action.env).reply.Running?
  }

  ghost predicate SoundStarts(w: World, actions: seq<Action>)
    requires Legal(w, actions)
    decreases |actions|
  {
    actions == [] || (SoundStart(w, actions[0]) && SoundStarts(Next(w, actions[0]), actions[1..]))
  }

  ghost predicate AllAgree(t: Tables) {
    forall i :: i in t.instances ==> RowAgrees(t, i)
  }

  lemma StartedAgrees(w: World, action: Action)
    requires Inv(w) && action.StartRequest? && Enabled(w, action) && SoundStart(w, action)
    ensures var t' := Next(w, action).tables;
            action.env.instanceId in t'.instances ==> RowAgrees(t', action.env.instanceId)
  {
    var t, env := w.tables, action.env;
    StartEffect(t, action.itemId, action.requester, env);
    if StartInstance(t, action.itemId, action.requester, env).tables != t {
      var d := t.items[action.itemId].definitionId;
      var r := Engine.Start(t.definitions[d]);
      SoundCallSettles(InsertInstance(t, env.instanceId, d, action.requester, r.stepId), t.definitions[d],
                       env.instanceId, map[], r.stepId, r.outcome, env);
    }
  }

  /**
   * Status and step kind agree in every reachable state once every start was sound: in progress at a question,
   * awaiting approval at an approval, ended at an end with that outcome, failed at a ticket.
   */
  lemma {:induction false} StatusAgreesWithStep(w: World, actions: seq<Action>)
    requires Inv(w) && Legal(w, actions) && AllAgree(w.tables) && SoundStarts(w, actions)
    ensures AllAgree(Run(w, actions).tables)
    decreases |actions|
  {
    if actions != [] {
      var w' := Next(w, actions[0]);
      forall i | i in w'.tables.instances ensures RowAgrees(w'.tables, i) {
        if i in w.tables.instances {
          assert RowAgrees(w.tables, i);
          StepFits(w, actions[0], i);
        } else {
          NewInstanceIsStarted(w, actions[0], i);
          StartedAgrees(w, actions[0]);
        }
      }
      StepKeeps(w, actions[0]);
      StatusAgreesWithStep(w', actions[1..]);
    }
  }

  /** An instance keeps following the graph it was started with. */
  lemma DefinitionStays(w: World, action: Action, i: Id)
    requires Enabled(w, action) && i in w.tables.instances
    ensures var t' := Next(w, action).tables;
            && i in t'.instances && t'.instances[i].definitionId == w.tables.instances[i].definitionId
            && forall d :: d in w.tables.definitions ==> d in t'.definitions && t'.definitions[d] == w.tables.definitions[d]
  {
    var t := w.tables;
    match action
    case StartRequest(itemId, requester, env) => StartEffect(t, itemId, requester, env);
    case AnswerQuestion(id, requester, key, value, env) => AnswerEffect(t, id, requester, key, value, env);
    case Proceed(pid, listing, env) =>
      ProceedTables(w, pid, listing, env);
      var proc := w.procs[pid];
      if Resuming(proc) {
        ResumeEffect(t, proc.row.instanceId, proc.row.stepId, HeldDecision(proc), env);
      }
    case _ =>
  }
}
