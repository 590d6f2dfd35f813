/** The decision service, the approvals route and the expiry poller as written, each shown to be a run of the machine. */
module Processes {
  import opened Workflow
  import Engine
  import opened Tables
  import opened Orchestrator
  import opened Calls
  import opened Protocol

  datatype DecideError = UnknownApproval | NotTheApprover | AlreadyDecided

  datatype Decision = Decided(row: Approval) | Denied(error: DecideError)

  /** The trace of a process: legal from `w`, ending in `w'`. */
  ghost predicate Leads(w: World, actions: seq<Action>, w': World) {
    Legal(w, actions) && Run(w, actions) == w'
  }

  lemma {:induction false} LeadsFurther(w: World, actions: seq<Action>, mid: World, action: Action)
    requires Leads(w, actions, mid) && Enabled(mid, action)
    ensures Leads(w, actions + [action], Next(mid, action))
    decreases |actions|
  {
    if actions == [] {
      assert (actions + [action])[1..] == [];
    } else {
      assert (actions + [action])[1..] == actions[1..] + [action];
      LeadsFurther(Next(w, actions[0]), actions[1..], mid, action);
    }
  }

  lemma {:induction false} LeadsJoin(w: World, first: seq<Action>, mid: World, second: seq<Action>, end: World)
    requires Leads(w, first, mid) && Leads(mid, second, end)
    ensures Leads(w, first + second, end)
    decreases |first|
  {
    if first == [] {
      assert first + second == second;
    } else {
      assert (first + second)[1..] == first[1..] + second;
      LeadsJoin(Next(w, first[0]), first[1..], mid, second, end);
    }
  }

  /** One more statement of process `pid`. */
  ghost function Stepped(pid: nat, env: Env): Action {
    Proceed(pid, [], env)
  }

  /**
   * The decision service: read, check, compare-and-set, read again. It follows the decider's statements one by one and
   * succeeds exactly when the caller is the approver and the row was still pending.
   */
  method Decide(db: Database, approval: Id, user: Id, decision: ApprovalDecision, comment: Option<string>, env: Env,
                ghost w: World, ghost pid: nat)
    returns (result: Decision, ghost actions: seq<Action>, ghost w': World)
    requires w.tables == db.Contents() && Drawn(w, env)
    requires pid in w.procs && w.procs[pid] == DeciderReading(approval, user, decision, comment)
    modifies db`approvals
    ensures Leads(w, actions, w') && w'.tables == db.Contents() && w'.clock == w.clock && w'.resumed == w.resumed
    ensures result.Decided? <==> approval in w.tables.approvals && w.tables.approvals[approval].approver == user
                                 && w.tables.approvals[approval].status.Pending?
    ensures result == Denied(UnknownApproval) <==> approval !in w.tables.approvals
    ensures result == Denied(NotTheApprover) <==> approval in w.tables.approvals && w.tables.approvals[approval].approver != user
    ensures result == Denied(AlreadyDecided) <==> approval in w.tables.approvals && w.tables.approvals[approval].approver == user
                                                  && !w.tables.approvals[approval].status.Pending?
    ensures result.Decided? ==>
              && result.row == w.tables.approvals[approval].(
                   status := if decision.Approve? then ApprovalStatus.Approved else ApprovalStatus.Rejected,
                   comment := comment, decidedAt := Some(env.now))
              && db.approvals == w.tables.approvals[approval := result.row]
    ensures result.Decided? ==> result.row.status == StatusFor(decision)
                                && w'.procs == w.procs[pid := DeciderResuming(approval, result.row, decision)]
    ensures result.Denied? ==> w'.procs == w.procs[pid := Ended] && db.Contents() == old(db.Contents())
    ensures db.approvals.Keys == old(db.approvals).Keys
  {
    actions, w' := [], w;
    if approval !in db.approvals {
      LeadsFurther(w, actions, w', Stepped(pid, env));
      actions, w' := actions + [Stepped(pid, env)], Next(w', Stepped(pid, env));
      return Denied(UnknownApproval), actions, w';
    }
    var row := db.approvals[approval];
    LeadsFurther(w, actions, w', Stepped(pid, env));
    actions, w' := actions + [Stepped(pid, env)], Next(w', Stepped(pid, env));
    if row.approver != user {
      return Denied(NotTheApprover), actions, w';
    }
    if row.status != Pending {
      return Denied(AlreadyDecided), actions, w';
    }
    var status := if decision.Approve? then ApprovalStatus.Approved else ApprovalStatus.Rejected;
    var flipped := db.Decide(approval, status, comment, env.now);
    LeadsFurther(w, actions, w', Stepped(pid, env));
    actions, w' := actions + [Stepped(pid, env)], Next(w', Stepped(pid, env));
    if !flipped {
      return Denied(AlreadyDecided), actions, w';
    }
    LeadsFurther(w, actions, w', Stepped(pid, env));
    actions, w' := actions + [Stepped(pid, env)], Next(w', Stepped(pid, env));
    result := Decided(db.approvals[approval]);
  }

  /** The approvals route: decide, then resume the instance from the approval's step with that same decision. */
  method DecideAndResume(db: Database, approval: Id, user: Id, decision: ApprovalDecision, comment: Option<string>, env: Env,
                         ghost w: World, ghost pid: nat)
    returns (reply: Option<Reply>, ghost actions: seq<Action>, ghost w': World)
    requires w.tables == db.Contents() && Drawn(w, env)
    requires pid in w.procs && w.procs[pid] == DeciderReading(approval, user, decision, comment)
    modifies db`approvals, db`instances, db`tickets
    ensures Leads(w, actions, w') && w'.tables == db.Contents() && w'.procs == w.procs[pid := Ended]
    ensures reply.Some? <==> w'.resumed == w.resumed + [Resumption(approval, decision)]
    ensures reply.None? ==> w'.resumed == w.resumed && db.Contents() == old(db.Contents())
  {
    var result;
    result, actions, w' := Decide(db, approval, user, decision, comment, env, w, pid);
    if result.Denied? {
      return None, actions, w';
    }
    var resumed := Resume(db, result.row.instanceId, result.row.stepId, decision, env);
    LeadsFurther(w, actions, w', Stepped(pid, env));
    actions, w' := actions + [Stepped(pid, env)], Next(w', Stepped(pid, env));
    reply := Some(resumed);
  }

  predicate IsExpiredBy(a: Approval, now: Time) {
    a.status.Expired? && a.comment == Some("auto-expired: approval timeout reached") && a.decidedAt == Some(now)
  }

  /** One listed row: flip it, and resume it as a rejection unless someone was faster. */
  method PollRow(db: Database, listed: Listed, drawn: Env, ghost w: World, ghost pid: nat, ghost rest: seq<Listed>)
    returns (ghost actions: seq<Action>, ghost w': World)
    requires w.tables == db.Contents() && Drawn(w, drawn)
    requires pid in w.procs && w.procs[pid] == PollerFlipping([listed] + rest)
    modifies db`approvals, db`instances, db`tickets
    ensures Leads(w, actions, w') && w'.tables == db.Contents() && w'.clock == w.clock
    ensures w'.procs == w.procs[pid := PollerFlipping(rest)]
    ensures w'.resumed == w.resumed || w'.resumed == w.resumed + [Resumption(listed.id, Reject)]
    ensures db.approvals.Keys <= old(db.approvals).Keys + {drawn.approvalId}
    ensures forall a :: a in old(db.approvals) && a != listed.id ==> a in db.approvals && db.approvals[a] == old(db.approvals)[a]
    ensures listed.id in old(db.approvals) && old(db.approvals)[listed.id].status.Pending? ==>
              && w'.resumed == w.resumed + [Resumption(listed.id, Reject)]
              && listed.id in db.approvals && IsExpiredBy(db.approvals[listed.id], drawn.now)
  {
    assert ([listed] + rest)[1..] == rest;
    actions, w' := [], w;
    var flipped := db.Decide(listed.id, ApprovalStatus.Expired, Some(EXPIRY_NOTE), drawn.now);
    LeadsFurther(w, actions, w', Stepped(pid, drawn));
    actions, w' := actions + [Stepped(pid, drawn)], Next(w', Stepped(pid, drawn));
    if flipped {
      HandleExpired(db, listed.row, drawn);
      ResumeAddsOnlyDrawn(w'.tables, listed.row.instanceId, listed.row.stepId, Reject, drawn);
      ResumeKeepsApprovals(w'.tables, listed.row.instanceId, listed.row.stepId, Reject, drawn);
      LeadsFurther(w, actions, w', Stepped(pid, drawn));
      actions, w' := actions + [Stepped(pid, drawn)], Next(w', Stepped(pid, drawn));
    }
  }

  /** One poll: list the expired rows, then take them one by one. */
  method PollOnce(db: Database, env: Env, draw: Id -> Env, ghost w: World, ghost pid: nat)
    returns (ghost actions: seq<Action>, ghost w': World)
    requires w.tables == db.Contents() && Drawn(w, env)
    requires pid in w.procs && w.procs[pid] == PollerListing
    requires forall a: Id :: draw(a).now == env.now && draw(a).approvalId !in db.approvals && draw(a).approvalId != env.approvalId
    requires forall a: Id, b: Id :: a != b ==> draw(a).approvalId != draw(b).approvalId
    modifies db`approvals, db`instances, db`tickets
    ensures Leads(w, actions, w') && w'.tables == db.Contents() && w'.procs == w.procs[pid := Ended]
    ensures |w.resumed| <= |w'.resumed| && forall k :: |w.resumed| <= k < |w'.resumed| ==> w'.resumed[k].decision == Reject
    ensures forall a :: a in w.tables.approvals && w.tables.approvals[a].status == ApprovalStatus.Pending
                        && w.tables.approvals[a].expiresAt.Some? && w.tables.approvals[a].expiresAt.value <= env.now ==>
              a in db.approvals && IsExpiredBy(db.approvals[a], env.now)
  {
    var listing := db.ListExpired(env.now);
    actions, w' := [], w;
    LeadsFurther(w, actions, w', Proceed(pid, listing, env));
    actions, w' := actions + [Proceed(pid, listing, env)], Next(w', Proceed(pid, listing, env));
    var rows := Snapshot(Tables(db.items, db.definitions, db.instances, db.approvals, db.tickets), listing);
    assert forall k :: 0 <= k < |rows| ==> rows[k].id == listing[k] && listing[k] in listing;
    ghost var mid := w';
    ghost var more;
    more, w' := PollRows(db, rows, env, draw, mid, pid);
    LeadsJoin(w, actions, mid, more, w');
    actions := actions + more;
    LeadsFurther(w, actions, w', Stepped(pid, env));
    actions, w' := actions + [Stepped(pid, env)], Next(w', Stepped(pid, env));
    assert forall a :: a in listing ==> exists k :: 0 <= k < |rows| && rows[k].id == a;
  }

  /** The loop over the listed rows. */
  method PollRows(db: Database, rows: seq<Listed>, env: Env, draw: Id -> Env, ghost w: World, ghost pid: nat)
    returns (ghost actions: seq<Action>, ghost w': World)
    requires w.tables == db.Contents() && w.clock == env.now && env.approvalId !in db.approvals
    requires pid in w.procs && w.procs[pid] == PollerFlipping(rows)
    requires forall j, k :: 0 <= j < k < |rows| ==> rows[j].id != rows[k].id
    requires forall k :: 0 <= k < |rows| ==> rows[k].id in db.approvals && db.approvals[rows[k].id].status.Pending?
    requires forall a: Id :: draw(a).now == env.now && draw(a).approvalId !in db.approvals && draw(a).approvalId != env.approvalId
    requires forall a: Id, b: Id :: a != b ==> draw(a).approvalId != draw(b).approvalId
    modifies db`approvals, db`instances, db`tickets
    ensures Leads(w, actions, w') && w'.tables == db.Contents() && w'.procs == w.procs[pid := PollerFlipping([])]
    ensures w'.clock == env.now && env.approvalId !in db.approvals
    ensures |w.resumed| <= |w'.resumed| && forall k :: |w.resumed| <= k < |w'.resumed| ==> w'.resumed[k].decision == Reject
    ensures forall k :: 0 <= k < |rows| ==> rows[k].id in db.approvals && IsExpiredBy(db.approvals[rows[k].id], env.now)
  {
    actions, w' := [], w;
    assert rows[0..] == rows;
    var i := 0;
    while i < |rows|
      invariant 0 <= i <= |rows| && w'.clock == env.now
      invariant Leads(w, actions, w') && w'.tables == db.Contents()
      invariant w'.procs == w.procs[pid := PollerFlipping(rows[i..])]
      invariant env.approvalId !in db.approvals
      invariant forall k :: i <= k < |rows| ==> draw(rows[k].id).approvalId !in db.approvals
      invariant forall k :: 0 <= k < i ==> rows[k].id in db.approvals && IsExpiredBy(db.approvals[rows[k].id], env.now)
      invariant forall k :: i <= k < |rows| ==> rows[k].id in db.approvals && db.approvals[rows[k].id].status.Pending?
      invariant |w.resumed| <= |w'.resumed|
      invariant forall k :: |w.resumed| <= k < |w'.resumed| ==> w'.resumed[k].decision == Reject
    {
      assert rows[i..] == [rows[i]] + rows[i + 1..];
      ghost var mid, sofar := w', actions;
      ghost var more;
      more, w' := PollRow(db, rows[i], draw(rows[i].id), mid, pid, rows[i + 1..]);
      LeadsJoin(w, sofar, mid, more, w');
      actions := sofar + more;
      i := i + 1;
    }
    assert rows[|rows|..] == [];
  }

  /** Expiry resumes as a rejection; a failed resumption is only logged. */
  method HandleExpired(db: Database, row: Approval, env: Env)
    requires env.approvalId !in db.approvals
    modifies db`approvals, db`instances, db`tickets
    ensures db.Contents() == ResumeAfterApproval(old(db.Contents()), row.instanceId, row.stepId, Reject, env).tables
  {
    var _ := Resume(db, row.instanceId, row.stepId, Reject, env);
  }

  lemma {:induction false} ApplyAddsOnlyDrawn(t: Tables, g: Graph, id: Id, answers: Answers, stepId: StepId, outcome: Engine.Outcome, env: Env)
    ensures ApplyOutcome(t, g, id, answers, stepId, outcome, env).tables.approvals.Keys <= t.approvals.Keys + {env.approvalId}
    decreases |env.dispatches|
  {
    if outcome.ReadyToSubmitTicket? && env.dispatches != [] {
      var r := Engine.ResumeAfterTicketDispatch(g, stepId, answers);
      if r.Ok? {
        ApplyAddsOnlyDrawn(WithTicket(t, id, stepId, env.dispatches[0]), g, id, answers, r.stepId, r.outcome,
                           env.(dispatches := env.dispatches[1..]));
      }
    }
  }

  lemma ResumeKeepsApprovals(t: Tables, id: Id, stepId: StepId, decision: ApprovalDecision, env: Env)
    requires env.approvalId !in t.approvals
    ensures var t' := ResumeAfterApproval(t, id, stepId, decision, env).tables;
            forall a :: a in t.approvals ==> a in t'.approvals && t'.approvals[a] == t.approvals[a]
  {
    ResumeEffect(t, id, stepId, decision, env);
  }

  lemma ResumeAddsOnlyDrawn(t: Tables, id: Id, stepId: StepId, decision: ApprovalDecision, env: Env)
    ensures ResumeAfterApproval(t, id, stepId, decision, env).tables.approvals.Keys <= t.approvals.Keys + {env.approvalId}
  {
    if id in t.instances && t.instances[id].definitionId in t.definitions {
      var g := t.definitions[t.instances[id].definitionId];
      var r := Engine.ResumeAfterApproval(g, stepId, t.instances[id].answers, decision);
      if r.Ok? {
        ApplyAddsOnlyDrawn(t, g, id, t.instances[id].answers, r.stepId, r.outcome, env);
      }
    }
  }
}
