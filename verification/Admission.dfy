/** Who may do what: the refusals that come before the engine is asked, each exactly when it applies. */
module Admission {
  import opened Workflow
  import Engine
  import opened Tables
  import opened Orchestrator
  import opened Calls
  import opened Protocol
  import opened ProtocolSteps
  import opened Settlement

  ghost predicate TurnedAway(reply: Reply) {
    reply == Refused(NotFound) || reply == Refused(Forbidden) || reply == Refused(Conflict)
  }

  /** Once the engine has been asked, nobody is turned away any more. */
  lemma {:induction false} ApplyTurnsNobodyAway(t: Tables, g: Graph, id: Id, answers: Answers, stepId: StepId, outcome: Engine.Outcome, env: Env)
    ensures !TurnedAway(ApplyOutcome(t, g, id, answers, stepId, outcome, env).reply)
    decreases |env.dispatches|
  {
    if outcome.ReadyToSubmitTicket? && env.dispatches != [] && env.dispatches[0].Delivered? {
      var r := Engine.ResumeAfterTicketDispatch(g, stepId, answers);
      if r.Ok? {
        ApplyTurnsNobodyAway(WithTicket(t, id, stepId, Delivered), g, id, answers, r.stepId, r.outcome,
                             env.(dispatches := env.dispatches[1..]));
      }
    }
  }

  /** Only the requester answers, only a request in progress is answered, and whoever is turned away changes nothing. */
  lemma AnswerAdmission(t: Tables, id: Id, requester: Id, key: string, value: Json, env: Env)
    ensures var a := SubmitAnswer(t, id, requester, key, value, env);
            && (a.reply == Refused(NotFound) <==> id !in t.instances)
            && (a.reply == Refused(Forbidden) <==> id in t.instances && t.instances[id].requester != requester)
            && (a.reply == Refused(Conflict) <==>
                  && id in t.instances && t.instances[id].requester == requester
                  && t.instances[id].status != InstanceStatus.InProgress)
            && (TurnedAway(a.reply) ==> a.tables == t)
            && (!TurnedAway(a.reply) && t.instances[id].definitionId !in t.definitions ==> a == Applied(t, Refused(Internal)))
  {
    if id in t.instances && t.instances[id].definitionId in t.definitions {
      var row := t.instances[id];
      var g := t.definitions[row.definitionId];
      var (r, answers) := Engine.SubmitAnswer(g, row.stepId, row.answers, key, value);
      if r.Ok? {
        ApplyTurnsNobodyAway(t, g, id, answers, r.stepId, r.outcome, env);
      }
    }
  }

  /** Only an offered service is started. */
  lemma StartAdmission(t: Tables, itemId: Id, requester: Id, env: Env)
    ensures var a := StartInstance(t, itemId, requester, env);
            && (a.reply == Refused(NotFound) <==> itemId !in t.items)
            && (a.reply == Refused(Conflict) <==> itemId in t.items && !t.items[itemId].active)
            && a.reply != Refused(Forbidden)
            && (TurnedAway(a.reply) ==> a.tables == t)
            && (!TurnedAway(a.reply) && t.items[itemId].definitionId !in t.definitions ==> a == Applied(t, Refused(Internal)))
  {
    if itemId in t.items && t.items[itemId].active && t.items[itemId].definitionId in t.definitions {
      var d := t.items[itemId].definitionId;
      var r := Engine.Start(t.definitions[d]);
      if r.Ok? {
        ApplyTurnsNobodyAway(InsertInstance(t, env.instanceId, d, requester, r.stepId), t.definitions[d], env.instanceId, map[],
                             r.stepId, r.outcome, env);
      }
    }
  }

  /** A resumption turns nobody away; without its instance or its graph it is an internal error without a trace. */
  lemma ResumeAdmission(t: Tables, id: Id, stepId: StepId, decision: ApprovalDecision, env: Env)
    ensures var a := ResumeAfterApproval(t, id, stepId, decision, env);
            && !TurnedAway(a.reply)
            && (id !in t.instances || t.instances[id].definitionId !in t.definitions ==> a == Applied(t, Refused(Internal)))
  {
    if id in t.instances && t.instances[id].definitionId in t.definitions {
      var row := t.instances[id];
      var g := t.definitions[row.definitionId];
      var r := Engine.ResumeAfterApproval(g, stepId, row.answers, decision);
      if r.Ok? {
        ApplyTurnsNobodyAway(t, g, id, row.answers, r.stepId, r.outcome, env);
      }
    }
  }

  /** A step of the machine in which an answer changes anything was made by the requester of that very instance. */
  lemma OnlyRequesterAnswers(w: World, id: Id, requester: Id, key: string, value: Json, env: Env)
    requires Enabled(w, AnswerQuestion(id, requester, key, value, env))
    requires Next(w, AnswerQuestion(id, requester, key, value, env)).tables != w.tables
    ensures id in w.tables.instances && w.tables.instances[id].requester == requester
    ensures w.tables.instances[id].status == InstanceStatus.InProgress
  {
    AnswerAdmission(w.tables, id, requester, key, value, env);
  }

  /** A new instance belongs to whoever started it and follows the graph of the service started. */
  lemma StartedForRequester(w: World, action: Action, i: Id)
    requires Enabled(w, action) && i !in w.tables.instances && i in Next(w, action).tables.instances
    ensures action.StartRequest? && Next(w, action).tables.instances[i].requester == action.requester
    ensures action.itemId in w.tables.items && w.tables.items[action.itemId].active
    ensures Next(w, action).tables.instances[i].definitionId == w.tables.items[action.itemId].definitionId
  {
    NewInstanceIsStarted(w, action, i);
    StartEffect(w.tables, action.itemId, action.requester, action.env);
    StartAdmission(w.tables, action.itemId, action.requester, action.env);
  }

  lemma RequesterStaysStep(w: World, action: Action, i: Id)
    requires Enabled(w, action) && i in w.tables.instances
    ensures i in Next(w, action).tables.instances
    ensures Next(w, action).tables.instances[i].requester == w.tables.instances[i].requester
  {
    var t := w.tables;
    match action
    case StartRequest(itemId, requester, env) => StartEffect(t, itemId, requester, env);
    case AnswerQuestion(id, requester, key, value, env) => AnswerEffect(t, id, requester, key, value, env);
    case Proceed(pid, listing, env) =>
      ProceedTables(w, pid, listing, env);
      var proc := w.procs[pid];
      if Resuming(proc) {
        ResumeEffect(t, proc.row.instanceId, proc.row.stepId, HeldDecision(proc), env);
      }
    case _ =>
  }

  /** No step of any run hands a request over to somebody else. */
  lemma {:induction false} RequesterStays(w: World, actions: seq<Action>, i: Id)
    requires Legal(w, actions) && i in w.tables.instances
    ensures i in Run(w, actions).tables.instances
    ensures Run(w, actions).tables.instances[i].requester == w.tables.instances[i].requester
    decreases |actions|
  {
    if actions != [] {
      RequesterStaysStep(w, actions[0], i);
      RequesterStays(Next(w, actions[0]), actions[1..], i);
    }
  }
}
