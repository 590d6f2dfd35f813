/** Drives the engine and performs the side effects its outcomes ask for. */
module Orchestrator {
  import opened Workflow
  import Engine
  import opened Tables

  /** What rendering and the connector made of one ticket. `NotRendered` stops before a ticket row exists. */
  datatype Dispatch = NotRendered | ConnectorFailed | Delivered

  datatype ApiError =
    | NotFound
    | Conflict
    | Forbidden
    | Internal
    | EngineFailure(error: Engine.EngineError)
    | ApprovalFailure
    | DispatchFailure

  /** `Running`: the call is still waiting for a connector. A call that never returns is `Running` at every prefix. */
  datatype Reply = Done(row: Instance) | Refused(error: ApiError) | Running

  /** Everything one call draws from outside: clock, fresh ids, approver resolution, and dispatch results in order. */
  datatype Env = Env(now: Time, instanceId: Id, approvalId: Id, approver: Option<Id>, dispatches: seq<Dispatch>)

  datatype Applied = Applied(tables: Tables, reply: Reply)

  function StatusOf(outcome: EndOutcome): InstanceStatus {
    match outcome
    case Completed => InstanceStatus.Completed
    case Rejected => InstanceStatus.Rejected
    case Cancelled => InstanceStatus.Cancelled
  }

  function Saved(t: Tables, id: Id, stepId: StepId, answers: Answers, status: InstanceStatus, now: Time): Applied {
    var t' := UpdateProgress(t, id, stepId, answers, status, now);
    Applied(t', if id in t'.instances then Done(t'.instances[id]) else Refused(Internal))
  }

  function ExpiryOf(timeout: Option<int>, now: Time): Option<Time> {
    match timeout
    case None => None
    case Some(secs) => Some(now + secs)
  }

  function WithTicket(t: Tables, id: Id, stepId: StepId, d: Dispatch): Tables {
    if d.NotRendered? then t else t.(tickets := t.tickets + [Ticket(id, stepId, d.Delivered?)])
  }

  function DispatchError(d: Dispatch): ApiError {
    if d.NotRendered? then Internal else DispatchFailure
  }

  /** One `apply_outcome` call, recursion in place of the loop: each turn consumes one dispatch result. */
  function ApplyOutcome(t: Tables, g: Graph, id: Id, answers: Answers, stepId: StepId, outcome: Engine.Outcome, env: Env): Applied
    decreases |env.dispatches|
  {
    match outcome
    case AwaitingAnswer(_) =>
      Saved(t, id, stepId, answers, InstanceStatus.InProgress, env.now)
    case AwaitingApproval(_, timeout) =>
      if env.approver.None? then Applied(t, Refused(ApprovalFailure))
      else
        var t' := InsertApproval(t, env.approvalId, id, stepId, env.approver.value, ExpiryOf(timeout, env.now));
        Saved(t', id, stepId, answers, InstanceStatus.AwaitingApproval, env.now)
    case ReadyToSubmitTicket =>
      if env.dispatches == [] then Applied(t, Running)
      else
        var d := env.dispatches[0];
        var t' := WithTicket(t, id, stepId, d);
        if !d.Delivered? then
          Applied(UpdateProgress(t', id, stepId, answers, InstanceStatus.Failed, env.now), Refused(DispatchError(d)))
        else
          (match Engine.ResumeAfterTicketDispatch(g, stepId, answers)
           case Err(e) => Applied(t', Refused(EngineFailure(e)))
           case Ok(nextId, next) =>
             ApplyOutcome(t', g, id, answers, nextId, next, env.(dispatches := env.dispatches[1..])))
    case Finished(end) =>
      Saved(t, id, stepId, answers, StatusOf(end), env.now)
  }

  function StartInstance(t: Tables, itemId: Id, requester: Id, env: Env): Applied {
    if itemId !in t.items then Applied(t, Refused(NotFound))
    else if !t.items[itemId].active then Applied(t, Refused(Conflict))
    else if t.items[itemId].definitionId !in t.definitions then Applied(t, Refused(Internal))
    else
      var definitionId := t.items[itemId].definitionId;
      var g := t.definitions[definitionId];
      match Engine.Start(g)
      case Err(e) => Applied(t, Refused(EngineFailure(e)))
      case Ok(stepId, outcome) =>
        ApplyOutcome(InsertInstance(t, env.instanceId, definitionId, requester, stepId),
                     g, env.instanceId, map[], stepId, outcome, env)
  }

  function SubmitAnswer(t: Tables, id: Id, requester: Id, key: string, value: Json, env: Env): Applied {
    if id !in t.instances then Applied(t, Refused(NotFound))
    else
      var row := t.instances[id];
      if row.requester != requester then Applied(t, Refused(Forbidden))
      else if row.status != InstanceStatus.InProgress then Applied(t, Refused(Conflict))
      else if row.definitionId !in t.definitions then Applied(t, Refused(Internal))
      else
        var g := t.definitions[row.definitionId];
        var (result, answers) := Engine.SubmitAnswer(g, row.stepId, row.answers, key, value);
        match result
        case Err(e) => Applied(t, Refused(EngineFailure(e)))
        case Ok(stepId, outcome) => ApplyOutcome(t, g, id, answers, stepId, outcome, env)
  }

  /** Resumes from the approval's own step, without looking at the instance's status or current step. */
  function ResumeAfterApproval(t: Tables, id: Id, stepId: StepId, decision: ApprovalDecision, env: Env): Applied {
    if id !in t.instances then Applied(t, Refused(Internal))
    else
      var row := t.instances[id];
      if row.definitionId !in t.definitions then Applied(t, Refused(Internal))
      else
        var g := t.definitions[row.definitionId];
        match Engine.ResumeAfterApproval(g, stepId, row.answers, decision)
        case Err(e) => Applied(t, Refused(EngineFailure(e)))
        case Ok(nextId, outcome) => ApplyOutcome(t, g, id, row.answers, nextId, outcome, env)
  }

  method RunDispatch(db: Database, id: Id, stepId: StepId, d: Dispatch) returns (ok: bool)
    modifies db`tickets
    ensures db.Contents() == WithTicket(old(db.Contents()), id, stepId, d)
    ensures ok == d.Delivered?
  {
    match d {
      case NotRendered =>
        ok := false;
      case ConnectorFailed =>
        db.AddTicket(Ticket(id, stepId, false));
        ok := false;
      case Delivered =>
        db.AddTicket(Ticket(id, stepId, true));
        ok := true;
    }
  }

  method SaveAndReply(db: Database, id: Id, stepId: StepId, answers: Answers, status: InstanceStatus, now: Time)
    returns (reply: Reply)
    modifies db`instances
    ensures Applied(db.Contents(), reply) == Saved(old(db.Contents()), id, stepId, answers, status, now)
  {
    var row := db.SaveProgress(id, stepId, answers, status, now);
    reply := if row.Some? then Done(row.value) else Refused(Internal);
  }

  /** The source's loop, proved against `ApplyOutcome`. */
  method DriveOutcome(db: Database, g: Graph, id: Id, answers: Answers, stepId: StepId, outcome: Engine.Outcome, env: Env)
    returns (reply: Reply)
    requires env.approvalId !in db.approvals
    modifies db`instances, db`approvals, db`tickets
    ensures Applied(db.Contents(), reply) == ApplyOutcome(old(db.Contents()), g, id, answers, stepId, outcome, env)
  {
    var currentId, current, pending := stepId, outcome, env;
    while true
      invariant pending == env.(dispatches := pending.dispatches)
      invariant db.approvals == old(db.approvals)
      invariant ApplyOutcome(db.Contents(), g, id, answers, currentId, current, pending)
             == ApplyOutcome(old(db.Contents()), g, id, answers, stepId, outcome, env)
      decreases |pending.dispatches|
    {
      match current {
        case AwaitingAnswer(_) =>
          reply := SaveAndReply(db, id, currentId, answers, InstanceStatus.InProgress, env.now);
          return;
        case AwaitingApproval(_, timeout) =>
          if env.approver.None? {
            return Refused(ApprovalFailure);
          }
          db.CreateApproval(env.approvalId, id, currentId, env.approver.value, ExpiryOf(timeout, env.now));
          reply := SaveAndReply(db, id, currentId, answers, InstanceStatus.AwaitingApproval, env.now);
          return;
        case ReadyToSubmitTicket =>
          if pending.dispatches == [] {
            return Running;
          }
          var d := pending.dispatches[0];
          var ok := RunDispatch(db, id, currentId, d);
          if !ok {
            var _ := db.SaveProgress(id, currentId, answers, InstanceStatus.Failed, env.now);
            return Refused(DispatchError(d));
          }
          var advanced := Engine.ResumeAfterTicketDispatch(g, currentId, answers);
          if advanced.Err? {
            return Refused(EngineFailure(advanced.error));
          }
          currentId, current := advanced.stepId, advanced.outcome;
          pending := pending.(dispatches := pending.dispatches[1..]);
        case Finished(end) =>
          reply := SaveAndReply(db, id, currentId, answers, StatusOf(end), env.now);
          return;
      }
    }
  }

  method Start(db: Database, itemId: Id, requester: Id, env: Env) returns (reply: Reply)
    requires env.instanceId !in db.instances && env.approvalId !in db.approvals
    modifies db`instances, db`approvals, db`tickets
    ensures Applied(db.Contents(), reply) == StartInstance(old(db.Contents()), itemId, requester, env)
  {
    if itemId !in db.items {
      return Refused(NotFound);
    }
    if !db.items[itemId].active {
      return Refused(Conflict);
    }
    var definitionId := db.items[itemId].definitionId;
    if definitionId !in db.definitions {
      return Refused(Internal);
    }
    var g := db.definitions[definitionId];
    var started := Engine.Start(g);
    if started.Err? {
      return Refused(EngineFailure(started.error));
    }
    db.CreateInstance(env.instanceId, definitionId, requester, started.stepId);
    reply := DriveOutcome(db, g, env.instanceId, map[], started.stepId, started.outcome, env);
  }

  method Answer(db: Database, id: Id, requester: Id, key: string, value: Json, env: Env) returns (reply: Reply)
    requires env.approvalId !in db.approvals
    modifies db`instances, db`approvals, db`tickets
    ensures Applied(db.Contents(), reply) == SubmitAnswer(old(db.Contents()), id, requester, key, value, env)
  {
    if id !in db.instances {
      return Refused(NotFound);
    }
    var row := db.instances[id];
    if row.requester != requester {
      return Refused(Forbidden);
    }
    if row.status != InstanceStatus.InProgress {
      return Refused(Conflict);
    }
    if row.definitionId !in db.definitions {
      return Refused(Internal);
    }
    var g := db.definitions[row.definitionId];
    var (result, answers) := Engine.SubmitAnswer(g, row.stepId, row.answers, key, value);
    if result.Err? {
      return Refused(EngineFailure(result.error));
    }
    reply := DriveOutcome(db, g, id, answers, result.stepId, result.outcome, env);
  }

  method Resume(db: Database, id: Id, stepId: StepId, decision: ApprovalDecision, env: Env) returns (reply: Reply)
    requires env.approvalId !in db.approvals
    modifies db`instances, db`approvals, db`tickets
    ensures Applied(db.Contents(), reply) == ResumeAfterApproval(old(db.Contents()), id, stepId, decision, env)
  {
    if id !in db.instances {
      return Refused(Internal);
    }
    var row := db.instances[id];
    if row.definitionId !in db.definitions {
      return Refused(Internal);
    }
    var g := db.definitions[row.definitionId];
    var result := Engine.ResumeAfterApproval(g, stepId, row.answers, decision);
    if result.Err? {
      return Refused(EngineFailure(result.error));
    }
    reply := DriveOutcome(db, g, id, row.answers, result.stepId, result.outcome, env);
  }
}
