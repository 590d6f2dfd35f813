/** One orchestrator call in terms of the engine conversation it carries on. */
module Tellings {
  import opened Workflow
  import Engine
  import BranchWalk
  import Sessions
  import opened Conversations
  import opened Tables
  import opened Orchestrator
  import opened Calls
  import opened TicketLoop

  function Sent(id: Id, steps: seq<StepId>): seq<Ticket> {
    seq(|steps|, k requires 0 <= k < |steps| => Ticket(id, steps[k], true))
  }

  /** The row was saved where the conversation got to. A ticket on top of those it passed is the one that failed. */
  ghost predicate SavedAt(g: Graph, row: Instance, q: Position, extra: seq<Ticket>) {
    && row.stepId == q.stepId && row.answers == q.answers && Agrees(g, row)
    && (extra != [] ==> row.status == InstanceStatus.Failed)
  }

  /**
   * The row was left alone although the conversation went on to `q`: an approval could not be opened there, a ticket is
   * being waited for there, or a ticket was delivered there and the engine then found no way on.
   */
  ghost predicate BrokenOffAt(g: Graph, q: Position, extra: seq<Ticket>) {
    && g.Find(q.stepId).Some?
    && if extra == [] then KindAt(g, q).WaitForApproval? || KindAt(g, q).SubmitTicket?
       else Engine.ResumeAfterTicketDispatch(g, q.stepId, q.answers).Err?
  }

  /** A call that entered the graph at `p` passed `m` tickets, possibly left one more, and saved its row or broke off. */
  ghost predicate Told(g: Graph, id: Id, tickets: seq<Ticket>, tickets': seq<Ticket>, row: Instance, row': Instance,
                       p: Position, m: nat, extra: seq<Ticket>) {
    && Arrival(g, p, Dones(m)).Some?
    && var q := Arrival(g, p, Dones(m)).value;
       && tickets' == tickets + Sent(id, Visits(g, p, Dones(m))) + extra
       && (extra == [] || (|extra| == 1 && extra[0].instanceId == id && extra[0].stepId == q.stepId && AtTicket(g, q.stepId)))
       && (SavedAt(g, row', q, extra) || (row' == row && BrokenOffAt(g, q, extra)))
  }

  lemma ToldNext(g: Graph, id: Id, tickets: seq<Ticket>, tickets': seq<Ticket>, row: Instance, row': Instance,
                 p: Position, m: nat, extra: seq<Ticket>)
    requires Moved(g, p, Sessions.TicketDone).Some?
    requires Told(g, id, tickets + [Ticket(id, p.stepId, true)], tickets', row, row', Moved(g, p, Sessions.TicketDone).value, m, extra)
    ensures Told(g, id, tickets, tickets', row, row', p, m + 1, extra)
    ensures Arrival(g, p, Dones(m + 1)) == Arrival(g, Moved(g, p, Sessions.TicketDone).value, Dones(m))
  {
    var p1 := Moved(g, p, Sessions.TicketDone).value;
    DonesInFront(g, p, m);
    SentAfter(id, tickets, p.stepId, Visits(g, p1, Dones(m)));
  }

  lemma DonesInFront(g: Graph, p: Position, m: nat)
    requires Moved(g, p, Sessions.TicketDone).Some?
    ensures var p1 := Moved(g, p, Sessions.TicketDone).value;
            && Arrival(g, p, Dones(m + 1)) == Arrival(g, p1, Dones(m))
            && Visits(g, p, Dones(m + 1)) == [p.stepId] + Visits(g, p1, Dones(m))
  {
    DonesUnfold(m + 1);
  }

  lemma SentAfter(id: Id, tickets: seq<Ticket>, s: StepId, later: seq<StepId>)
    ensures tickets + [Ticket(id, s, true)] + Sent(id, later) == tickets + Sent(id, [s] + later)
  {
    assert Sent(id, [s] + later) == [Ticket(id, s, true)] + Sent(id, later);
  }

  /** The row after a call, as the conversation sees it. */
  ghost predicate CallTold(t: Tables, a: Applied, g: Graph, id: Id, p: Position, m: nat, extra: seq<Ticket>) {
    && id in t.instances && id in a.tables.instances
    && Told(g, id, t.tickets, a.tables.tickets, t.instances[id], a.tables.instances[id], p, m, extra)
    && (a.reply.Done? ==> SavedAt(g, a.tables.instances[id], Arrival(g, p, Dones(m)).value, extra))
  }

  ghost function Applying(t: Tables, g: Graph, id: Id, p: Position, env: Env): Applied
    requires Standing(g, p)
  {
    ApplyOutcome(t, g, id, p.answers, p.stepId, Engine.OutcomeOf(KindAt(g, p)), env)
  }

  lemma {:induction false} ApplyTells(t: Tables, g: Graph, id: Id, p: Position, env: Env) returns (m: nat, extra: seq<Ticket>)
    requires id in t.instances && Standing(g, p)
    ensures CallTold(t, Applying(t, g, id, p, env), g, id, p, m, extra)
    decreases |env.dispatches|
  {
    if KindAt(g, p).SubmitTicket? && env.dispatches != [] {
      m, extra := DispatchTells(t, g, id, p, env);
    } else {
      m, extra := 0, [];
      assert Sent(id, []) == [];
      ApplyEffect(t, g, id, p.answers, p.stepId, Engine.OutcomeOf(KindAt(g, p)), env);
    }
  }

  lemma {:induction false} DispatchTells(t: Tables, g: Graph, id: Id, p: Position, env: Env) returns (m: nat, extra: seq<Ticket>)
    requires id in t.instances && Standing(g, p) && KindAt(g, p).SubmitTicket? && env.dispatches != []
    ensures CallTold(t, Applying(t, g, id, p, env), g, id, p, m, extra)
    decreases |env.dispatches|, 0
  {
    var d := env.dispatches[0];
    var t1 := WithTicket(t, id, p.stepId, d);
    var r := Engine.ResumeAfterTicketDispatch(g, p.stepId, p.answers);
    assert Sent(id, []) == [];
    if d.Delivered? && r.Ok? {
      MovedStands(g, p, Sessions.TicketDone);
      var p1 := Moved(g, p, Sessions.TicketDone).value;
      var rest := env.(dispatches := env.dispatches[1..]);
      m, extra := ApplyTells(t1, g, id, p1, rest);
      var a := Applying(t1, g, id, p1, rest);
      ToldNext(g, id, t.tickets, a.tables.tickets, t.instances[id], a.tables.instances[id], p, m, extra);
      m := m + 1;
    } else {
      m, extra := 0, if d.NotRendered? then [] else [Ticket(id, p.stepId, d.Delivered?)];
    }
  }

  /** The call goes on at `q` with the tables and dispatches that are left. */
  ghost predicate GoesOn(t: Tables, t': Tables, g: Graph, id: Id, p: Position, q: Position, env: Env, ds: seq<Dispatch>, rest: seq<Dispatch>)
    requires Standing(g, p) && Standing(g, q)
  {
    Applying(t, g, id, p, env.(dispatches := ds)) == Applying(t', g, id, q, env.(dispatches := rest))
  }

  /** The tables with the tickets of `k` deliveries from `p`. */
  function Delivering(t: Tables, g: Graph, id: Id, p: Position, k: nat): Tables {
    t.(tickets := t.tickets + Sent(id, Visits(g, p, Dones(k))))
  }

  /** Deliveries in front take a call where the conversation takes the tickets. */
  lemma {:induction false} ServeTickets(t: Tables, g: Graph, id: Id, p: Position, env: Env, m: nat, ds: seq<Dispatch>)
    requires Standing(g, p) && Arrival(g, p, Dones(m)).Some?
    ensures Standing(g, Arrival(g, p, Dones(m)).value)
    ensures GoesOn(t, Delivering(t, g, id, p, m), g, id, p, Arrival(g, p, Dones(m)).value, env, Deliveries(m) + ds, ds)
    decreases m
  {
    if m == 0 {
      assert Deliveries(0) + ds == ds && t.tickets + Sent(id, []) == t.tickets;
    } else {
      DonesUnfold(m);
      MovedStands(g, p, Sessions.TicketDone);
      DeliveringNext(t, g, id, p, m);
      var p1 := Moved(g, p, Sessions.TicketDone).value;
      var t1 := WithTicket(t, id, p.stepId, Delivered);
      ServeTickets(t1, g, id, p1, env, m - 1, ds);
      DeliveriesInFront(m, ds);
      ServeOne(t, g, id, p, env, Deliveries(m) + ds, Deliveries(m - 1) + ds);
      GoesOnJoin(t, t1, Delivering(t, g, id, p, m), g, id, p, p1, Arrival(g, p, Dones(m)).value, env,
                 Deliveries(m) + ds, Deliveries(m - 1) + ds, ds);
    }
  }

  lemma DeliveriesInFront(m: nat, ds: seq<Dispatch>)
    requires m > 0
    ensures Deliveries(m) + ds == [Delivered] + (Deliveries(m - 1) + ds)
  {
  }

  lemma DeliveringNext(t: Tables, g: Graph, id: Id, p: Position, m: nat)
    requires m > 0 && Moved(g, p, Sessions.TicketDone).Some?
    ensures var p1 := Moved(g, p, Sessions.TicketDone).value;
            && Arrival(g, p, Dones(m)) == Arrival(g, p1, Dones(m - 1))
            && Delivering(WithTicket(t, id, p.stepId, Delivered), g, id, p1, m - 1) == Delivering(t, g, id, p, m)
  {
    DonesInFront(g, p, m - 1);
    SentAfter(id, t.tickets, p.stepId, Visits(g, Moved(g, p, Sessions.TicketDone).value, Dones(m - 1)));
  }

  lemma GoesOnJoin(t: Tables, t1: Tables, t2: Tables, g: Graph, id: Id, p: Position, p1: Position, p2: Position, env: Env,
                   ds: seq<Dispatch>, ds1: seq<Dispatch>, ds2: seq<Dispatch>)
    requires Standing(g, p) && Standing(g, p1) && Standing(g, p2)
    requires GoesOn(t, t1, g, id, p, p1, env, ds, ds1) && GoesOn(t1, t2, g, id, p1, p2, env, ds1, ds2)
    ensures GoesOn(t, t2, g, id, p, p2, env, ds, ds2)
  {
  }

  lemma ServeOne(t: Tables, g: Graph, id: Id, p: Position, env: Env, ds: seq<Dispatch>, rest: seq<Dispatch>)
    requires ds == [Delivered] + rest && Moved(g, p, Sessions.TicketDone).Some?
    requires Standing(g, p) && Standing(g, Moved(g, p, Sessions.TicketDone).value)
    ensures GoesOn(t, WithTicket(t, id, p.stepId, Delivered), g, id, p, Moved(g, p, Sessions.TicketDone).value, env, ds, rest)
  {
    MovedStands(g, p, Sessions.TicketDone);
    assert ds[1..] == rest;
    var e := env.(dispatches := ds);
    assert e.(dispatches := e.dispatches[1..]) == env.(dispatches := rest);
  }
}

/** Every run of the protocol carries on one engine conversation per instance. */
module Refinement {
  import opened Workflow
  import Engine
  import BranchWalk
  import Sessions
  import opened Conversations
  import opened Tables
  import opened Orchestrator
  import opened Calls
  import opened Protocol
  import opened ProtocolSteps
  import opened Guarantees
  import opened Provenance
  import opened Settlement
  import opened Records
  import opened Tellings

  function PositionOf(row: Instance): Position {
    Position(row.stepId, row.answers)
  }

  /** The decisions with which approvals of this instance were resumed, in the order of the resumptions. */
  function ResumedOf(rows: Approvals, log: seq<Resumption>, i: Id): seq<Verdict> {
    if log == [] then []
    else
      var last := log[|log| - 1];
      ResumedOf(rows, log[..|log| - 1], i)
      + if last.approval in rows && rows[last.approval].instanceId == i
        then [Verdict(rows[last.approval].stepId, last.decision)] else []
  }

  lemma {:induction false} ResumedStays(rows: Approvals, rows': Approvals, log: seq<Resumption>, i: Id)
    requires Grown(rows, rows') && forall k :: 0 <= k < |log| ==> log[k].approval in rows
    ensures ResumedOf(rows', log, i) == ResumedOf(rows, log, i)
    decreases |log|
  {
    if log != [] {
      ResumedStays(rows, rows', log[..|log| - 1], i);
      assert log[|log| - 1].approval in rows;
    }
  }

  lemma {:induction false} NothingResumed(rows: Approvals, log: seq<Resumption>, i: Id)
    requires forall a :: a in rows ==> rows[a].instanceId != i
    ensures ResumedOf(rows, log, i) == []
    decreases |log|
  {
    if log != [] {
      NothingResumed(rows, log[..|log| - 1], i);
    }
  }

  lemma {:induction false} TicketsOfJoin(tickets: seq<Ticket>, more: seq<Ticket>, i: Id)
    requires forall k :: 0 <= k < |more| ==> more[k].instanceId == i
    ensures TicketsOf(tickets + more, i) == TicketsOf(tickets, i) + more
    decreases |more|
  {
    if more == [] {
      assert tickets + more == tickets;
    } else {
      var all := tickets + more;
      assert all[..|all| - 1] == tickets + more[..|more| - 1];
      TicketsOfJoin(tickets, more[..|more| - 1], i);
    }
  }

  /** What one step of the machine means for an instance. */
  datatype Event =
    | Nothing
    | Called(input: Sessions.Input, m: nat, extra: seq<Ticket>)
    | Lost(decision: ApprovalDecision)

  /**
   * Nothing; or an accepted input, the tickets passed after it, and a row saved or a call broken off; or a resumption
   * the engine refused, which is logged, leaves no other trace and is the instance's last.
   */
  ghost predicate Happened(w: World, w': World, g: Graph, i: Id, e: Event) {
    && InstanceOf(w.tables, i, g) && InstanceOf(w'.tables, i, g)
    && var row, row' := w.tables.instances[i], w'.tables.instances[i];
       var before, after := TicketsOf(w.tables.tickets, i), TicketsOf(w'.tables.tickets, i);
       var past, log := ResumedOf(w.tables.approvals, w.resumed, i), ResumedOf(w'.tables.approvals, w'.resumed, i);
       match e
       case Nothing => row' == row && after == before && log == past
       case Lost(d) => row' == row && after == before && log == past + [Verdict(row.stepId, d)] && Stuck(w', i) && !Stuck(w, i)
       case Called(x, m, extra) =>
         && !x.TicketDone? && Moved(g, PositionOf(row), x).Some? && !Stuck(w, i)
         && var p := Moved(g, PositionOf(row), x).value;
            && Told(g, i, before, after, row, row', p, m, extra)
            && log == past + (if x.Decide? then [Verdict(row.stepId, x.decision)] else [])
            && (x.Decide? ==> SavedAt(g, row', Arrival(g, p, Dones(m)).value, extra) || Stuck(w', i))
  }

  /** An untouched instance with the same resumptions saw nothing. */
  lemma UntouchedIsNothing(w: World, w': World, g: Graph, i: Id)
    requires Inv(w) && InstanceOf(w.tables, i, g) && Untouched(w.tables, w'.tables, i) && w'.resumed == w.resumed
    requires Grown(w.tables.approvals, w'.tables.approvals)
    ensures Happened(w, w', g, i, Nothing)
  {
    ResumedStays(w.tables.approvals, w'.tables.approvals, w.resumed, i);
  }

  /** Tickets of one call, seen from the tickets of its own instance. */
  lemma ToldOfInstance(g: Graph, id: Id, tickets: seq<Ticket>, tickets': seq<Ticket>, row: Instance, row': Instance,
                       p: Position, m: nat, extra: seq<Ticket>)
    requires Told(g, id, tickets, tickets', row, row', p, m, extra)
    ensures Told(g, id, TicketsOf(tickets, id), TicketsOf(tickets', id), row, row', p, m, extra)
  {
    AddedOfInstance(tickets, id, Visits(g, p, Dones(m)), extra);
  }

  lemma AddedOfInstance(tickets: seq<Ticket>, id: Id, steps: seq<StepId>, extra: seq<Ticket>)
    requires forall k :: 0 <= k < |extra| ==> extra[k].instanceId == id
    ensures TicketsOf(tickets + Sent(id, steps) + extra, id) == TicketsOf(tickets, id) + Sent(id, steps) + extra
  {
    TicketsOfJoin(tickets, Sent(id, steps), id);
    TicketsOfJoin(tickets + Sent(id, steps), extra, id);
  }

  /** An answer to this very instance. */
  lemma AnswerHappens(w: World, requester: Id, key: string, value: Json, env: Env, g: Graph, i: Id) returns (e: Event)
    requires Inv(w) && Drawn(w, env) && InstanceOf(w.tables, i, g)
    ensures Happened(w, w.(tables := SubmitAnswer(w.tables, i, requester, key, value, env).tables), g, i, e)
  {
    var t := w.tables;
    var a := SubmitAnswer(t, i, requester, key, value, env);
    var w' := w.(tables := a.tables);
    AnswerEffect(t, i, requester, key, value, env);
    if a.tables == t {
      return Nothing;
    }
    if Stuck(w, i) {
      StuckRefusesAnswer(w, i, requester, key, value, env);
    }
    var row, x := t.instances[i], Sessions.Answer(key, value);
    MovedStands(g, PositionOf(row), x);
    var p := Moved(g, PositionOf(row), x).value;
    var m, extra := ApplyTells(t, g, i, p, env);
    ToldOfInstance(g, i, t.tickets, a.tables.tickets, row, a.tables.instances[i], p, m, extra);
    OpenedGrows(t, a.tables, i, env);
    ResumedStays(t.approvals, a.tables.approvals, w.resumed, i);
    e := Called(x, m, extra);
  }

  /** Once its only open approval is resumed without a new one, an instance awaiting approval is stuck. */
  lemma ResumedIsStuck(w: World, pid: nat, a: Id, row: Approval, decision: ApprovalDecision, proc: Proc, env: Env)
    requires Inv(w) && Drawn(w, env) && MayResume(w, pid, a, row, decision, proc)
    ensures var w' := Resumes(w, pid, a, row, decision, proc, env);
            var id := row.instanceId;
            && id in w.tables.instances && id in w'.tables.instances
            && (w'.tables.approvals == w.tables.approvals && w'.tables.instances[id] == w.tables.instances[id] ==> Stuck(w', id))
  {
    var w' := Resumes(w, pid, a, row, decision, proc, env);
    var id := row.instanceId;
    ResumeCall(w, pid, a, row, decision, proc, env);
    ResumeLogs(w, pid, a, row, decision, proc, env);
    assert OpenPlaced(w, a);
    if w'.tables.approvals == w.tables.approvals && w'.tables.instances[id] == w.tables.instances[id] {
      forall b | Open(w', b) ensures w'.tables.approvals[b].instanceId != id {
        assert Open(w, b);
        assert w.tables.approvals[b].instanceId == id ==> SameInstance(w.tables, a, b);
      }
    }
  }

  /** A holder's approval stands where its instance does, which is therefore not stuck. */
  lemma HolderStands(w: World, pid: nat, a: Id, row: Approval, decision: ApprovalDecision, proc: Proc)
    requires Inv(w) && MayResume(w, pid, a, row, decision, proc)
    ensures row.instanceId in w.tables.instances && w.tables.instances[row.instanceId].stepId == row.stepId
    ensures !Stuck(w, row.instanceId)
  {
    assert HolderRight(w, w.procs[pid]);
    assert Open(w, a) && OpenPlaced(w, a);
  }

  /** A resumption from the step its instance stands at. */
  lemma ResumeTells(t: Tables, g: Graph, i: Id, decision: ApprovalDecision, env: Env) returns (m: nat, extra: seq<Ticket>)
    requires InstanceOf(t, i, g)
    ensures var a := ResumeAfterApproval(t, i, t.instances[i].stepId, decision, env);
            var next := Moved(g, PositionOf(t.instances[i]), Sessions.Decide(decision));
            && (next.None? ==> a.tables == t)
            && (next.Some? ==> CallTold(t, a, g, i, next.value, m, extra))
            && (!a.reply.Done? ==> a.tables.approvals == t.approvals)
            && InstanceOf(a.tables, i, g)
  {
    var at, x := PositionOf(t.instances[i]), Sessions.Decide(decision);
    ResumeEffect(t, i, at.stepId, decision, env);
    ResumeOpens(t, i, at.stepId, decision, env);
    m, extra := 0, [];
    if Moved(g, at, x).Some? {
      MovedStands(g, at, x);
      m, extra := ApplyTells(t, g, i, Moved(g, at, x).value, env);
    }
  }

  /** A holder resumes this very instance. */
  lemma ResumeHappens(w: World, pid: nat, a: Id, row: Approval, decision: ApprovalDecision, proc: Proc, env: Env, g: Graph)
    returns (e: Event)
    requires Inv(w) && Drawn(w, env) && MayResume(w, pid, a, row, decision, proc) && InstanceOf(w.tables, row.instanceId, g)
    ensures Happened(w, Resumes(w, pid, a, row, decision, proc, env), g, row.instanceId, e)
  {
    var i := row.instanceId;
    HolderStands(w, pid, a, row, decision, proc);
    ResumedIsStuck(w, pid, a, row, decision, proc, env);
    LogGrows(w, pid, a, row, decision, proc, env);
    var m, extra := ResumeTells(w.tables, g, i, decision, env);
    e := ResumeEvent(w, Resumes(w, pid, a, row, decision, proc, env), ResumeAfterApproval(w.tables, i, row.stepId, decision, env),
                     g, i, decision, m, extra);
  }

  lemma ResumeEvent(w: World, w': World, a: Applied, g: Graph, i: Id, decision: ApprovalDecision, m: nat, extra: seq<Ticket>)
    returns (e: Event)
    requires InstanceOf(w.tables, i, g) && InstanceOf(w'.tables, i, g) && w'.tables == a.tables && !Stuck(w, i)
    requires w'.tables.approvals == w.tables.approvals && w'.tables.instances[i] == w.tables.instances[i] ==> Stuck(w', i)
    requires ResumedOf(w'.tables.approvals, w'.resumed, i)
          == ResumedOf(w.tables.approvals, w.resumed, i) + [Verdict(w.tables.instances[i].stepId, decision)]
    requires var next := Moved(g, PositionOf(w.tables.instances[i]), Sessions.Decide(decision));
             && (next.None? ==> a.tables == w.tables)
             && (next.Some? ==> CallTold(w.tables, a, g, i, next.value, m, extra))
             && (!a.reply.Done? ==> a.tables.approvals == w.tables.approvals)
    ensures Happened(w, w', g, i, e)
  {
    var t := w.tables;
    var next := Moved(g, PositionOf(t.instances[i]), Sessions.Decide(decision));
    if next.None? {
      e := Lost(decision);
    } else {
      ToldOfInstance(g, i, t.tickets, a.tables.tickets, t.instances[i], a.tables.instances[i], next.value, m, extra);
      e := Called(Sessions.Decide(decision), m, extra);
    }
  }

  lemma LogGrows(w: World, pid: nat, a: Id, row: Approval, decision: ApprovalDecision, proc: Proc, env: Env)
    requires Inv(w) && Drawn(w, env) && MayResume(w, pid, a, row, decision, proc)
    ensures var w' := Resumes(w, pid, a, row, decision, proc, env);
            && Grown(w.tables.approvals, w'.tables.approvals)
            && forall i :: ResumedOf(w'.tables.approvals, w'.resumed, i) ==
                 ResumedOf(w.tables.approvals, w.resumed, i) + if i == row.instanceId then [Verdict(row.stepId, decision)] else []
  {
    var w' := Resumes(w, pid, a, row, decision, proc, env);
    var rows, rows' := w.tables.approvals, w'.tables.approvals;
    ResumeCall(w, pid, a, row, decision, proc, env);
    assert HolderRight(w, w.procs[pid]);
    OpenedGrows(w.tables, w'.tables, row.instanceId, env);
    forall i ensures ResumedOf(rows', w'.resumed, i) ==
                     ResumedOf(rows, w.resumed, i) + if i == row.instanceId then [Verdict(row.stepId, decision)] else [] {
      ResumedStays(rows, rows', w.resumed, i);
      assert w'.resumed[..|w'.resumed| - 1] == w.resumed;
    }
  }

  /** Approvals only grow, and decided ones are final, in every step. */
  lemma StepGrows(w: World, action: Action)
    requires Inv(w) && Enabled(w, action)
    ensures Grown(w.tables.approvals, Next(w, action).tables.approvals)
  {
    var t := w.tables;
    match action
    case StartRequest(itemId, requester, env) =>
      StartEffect(t, itemId, requester, env);
      var t' := StartInstance(t, itemId, requester, env).tables;
      if t' != t {
        var d := t.items[itemId].definitionId;
        OpenedGrows(InsertInstance(t, env.instanceId, d, requester, Engine.Start(t.definitions[d]).stepId), t', env.instanceId, env);
      }
    case AnswerQuestion(id, requester, key, value, env) =>
      AnswerEffect(t, id, requester, key, value, env);
      var t' := SubmitAnswer(t, id, requester, key, value, env).tables;
      if t' != t {
        OpenedGrows(t, t', id, env);
      }
    case Proceed(pid, listing, env) => ProceedGrows(w, pid, listing, env);
    case _ =>
  }

  lemma ProceedGrows(w: World, pid: nat, listing: seq<Id>, env: Env)
    requires Inv(w) && Enabled(w, Proceed(pid, listing, env))
    ensures Grown(w.tables.approvals, Advanced(w, pid, listing, env).tables.approvals)
  {
    ProceedTables(w, pid, listing, env);
    var proc := w.procs[pid];
    if Resuming(proc) {
      HolderMayResume(w, pid);
      LogGrows(w, pid, proc.approval, proc.row, HeldDecision(proc), AfterResuming(proc), env);
    }
  }

  /** What a step of the machine means for an instance it finds there. */
  lemma StepHappens(w: World, action: Action, g: Graph, i: Id) returns (e: Event)
    requires Inv(w) && Enabled(w, action) && InstanceOf(w.tables, i, g)
    ensures Happened(w, Next(w, action), g, i, e)
  {
    var w' := Next(w, action);
    StepGrows(w, action);
    e := Nothing;
    match action
    case StartRequest(itemId, requester, env) =>
      OtherStartUntouched(w, itemId, requester, env, i);
      UntouchedIsNothing(w, w', g, i);
    case AnswerQuestion(id, requester, key, value, env) =>
      if id == i {
        e := AnswerHappens(w, requester, key, value, env, g, i);
      } else {
        OtherAnswerUntouched(w, id, requester, key, value, env, i);
        UntouchedIsNothing(w, w', g, i);
      }
    case Proceed(pid, listing, env) =>
      e := ProceedHappens(w, pid, listing, env, g, i);
    case _ =>
      ResumedStays(w.tables.approvals, w'.tables.approvals, w.resumed, i);
  }

  lemma ProceedHappens(w: World, pid: nat, listing: seq<Id>, env: Env, g: Graph, i: Id) returns (e: Event)
    requires Inv(w) && Enabled(w, Proceed(pid, listing, env)) && InstanceOf(w.tables, i, g)
    ensures Happened(w, Advanced(w, pid, listing, env), g, i, e)
  {
    var w' := Advanced(w, pid, listing, env);
    var proc := w.procs[pid];
    e := Nothing;
    if !Resuming(proc) {
      ProceedGrows(w, pid, listing, env);
      ProceedTables(w, pid, listing, env);
      NotResuming(w, pid, listing, env);
      ResumedStays(w.tables.approvals, w'.tables.approvals, w.resumed, i);
    } else {
      HolderMayResume(w, pid);
      e := ResumingHappens(w, pid, proc.approval, proc.row, HeldDecision(proc), AfterResuming(proc), env, g, i);
    }
  }

  lemma NotResuming(w: World, pid: nat, listing: seq<Id>, env: Env)
    requires Enabled(w, Proceed(pid, listing, env)) && !Resuming(w.procs[pid])
    ensures Advanced(w, pid, listing, env).resumed == w.resumed
  {
  }

  lemma ResumingHappens(w: World, pid: nat, a: Id, row: Approval, decision: ApprovalDecision, proc: Proc, env: Env, g: Graph, i: Id)
    returns (e: Event)
    requires Inv(w) && Drawn(w, env) && MayResume(w, pid, a, row, decision, proc) && InstanceOf(w.tables, i, g)
    ensures Happened(w, Resumes(w, pid, a, row, decision, proc, env), g, i, e)
  {
    if row.instanceId == i {
      e := ResumeHappens(w, pid, a, row, decision, proc, env, g);
    } else {
      OtherResumeUntouched(w, row.instanceId, row.stepId, decision, env, i);
      LogGrows(w, pid, a, row, decision, proc, env);
      e := Nothing;
    }
  }

  /** What a start means for the instance it inserts. A start that breaks off leaves it stuck where it was inserted. */
  ghost predicate Began(w: World, g: Graph, i: Id, m: nat, extra: seq<Ticket>) {
    && InstanceOf(w.tables, i, g) && Engine.Start(g).Ok?
    && var row := w.tables.instances[i];
       && ResumedOf(w.tables.approvals, w.resumed, i) == []
       && (exists inserted :: PositionOf(inserted) == StartAt(g)
                              && Told(g, i, [], TicketsOf(w.tables.tickets, i), inserted, row, StartAt(g), m, extra))
       && (SavedAt(g, row, Arrival(g, StartAt(g), Dones(m)).value, extra) || (PositionOf(row) == StartAt(g) && Stuck(w, i)))
  }

  lemma StartHappens(w: World, itemId: Id, requester: Id, env: Env) returns (g: Graph, m: nat, extra: seq<Ticket>)
    requires Inv(w) && Drawn(w, env) && env.instanceId !in w.tables.instances
    requires TicketsOf(w.tables.tickets, env.instanceId) == []
    requires env.instanceId in StartInstance(w.tables, itemId, requester, env).tables.instances
    ensures Began(w.(tables := StartInstance(w.tables, itemId, requester, env).tables), g, env.instanceId, m, extra)
  {
    var t, i := w.tables, env.instanceId;
    StartEffect(t, itemId, requester, env);
    var d := t.items[itemId].definitionId;
    g := t.definitions[d];
    var a := StartInstance(t, itemId, requester, env);
    var t1 := InsertInstance(t, i, d, requester, Engine.Start(g).stepId);
    StartStands(g);
    m, extra := ApplyTells(t1, g, i, StartAt(g), env);
    ToldOfInstance(g, i, t1.tickets, a.tables.tickets, t1.instances[i], a.tables.instances[i], StartAt(g), m, extra);
    ApplyOpens(t1, g, i, map[], Engine.Start(g).stepId, Engine.Start(g).outcome, env);
    OpenedGrows(t1, a.tables, i, env);
    ResumedStays(t.approvals, a.tables.approvals, w.resumed, i);
    NothingResumed(t.approvals, w.resumed, i);
    if !SavedAt(g, a.tables.instances[i], Arrival(g, StartAt(g), Dones(m)).value, extra) {
      StartBreaksOff(w, a.tables, t1, g, i, m, extra);
    }
  }

  /** An unsaved start inserted a row away from any question and opened no approval. */
  lemma StartBreaksOff(w: World, t': Tables, t1: Tables, g: Graph, i: Id, m: nat, extra: seq<Ticket>)
    requires Inv(w) && i !in w.tables.instances && Engine.Start(g).Ok? && InstanceOf(t', i, g) && i in t1.instances
    requires t'.approvals == w.tables.approvals && t'.instances[i] == t1.instances[i] && PositionOf(t1.instances[i]) == StartAt(g)
    requires Arrival(g, StartAt(g), Dones(m)).Some? && BrokenOffAt(g, Arrival(g, StartAt(g), Dones(m)).value, extra)
    requires extra != [] ==> AtTicket(g, Arrival(g, StartAt(g), Dones(m)).value.stepId)
    ensures Stuck(w.(tables := t'), i)
  {
    if m > 0 {
      DonesUnfold(m);
      MovedStands(g, StartAt(g), Sessions.TicketDone);
    }
    assert !KindAt(g, StartAt(g)).Question?;
  }

  /** The decisions of a conversation. */
  function Decided(g: Graph, talk: seq<Sessions.Input>): seq<Verdict>
    requires Engine.Start(g).Ok?
  {
    Verdicts(g, StartAt(g), talk)
  }

  /**
   * The row stands where the conversation arrived, and the conversation's decisions are the instance's resumptions,
   * one for one and in order. Only the last resumption of an instance that is stuck may be missing from it.
   */
  ghost predicate Follows(w: World, g: Graph, i: Id, talk: seq<Sessions.Input>) {
    && InstanceOf(w.tables, i, g) && Arrives(g, talk, PositionOf(w.tables.instances[i]))
    && var log := ResumedOf(w.tables.approvals, w.resumed, i);
       || log == Decided(g, talk)
       || (Stuck(w, i) && |log| == |Decided(g, talk)| + 1 && Decided(g, talk) <= log)
  }

  /** The ticket was sent where some conversation arrives that takes the instance's first resumed decisions and no others. */
  ghost predicate TicketFollows(g: Graph, ticket: Ticket, log: seq<Verdict>) {
    exists talk, p :: Arrives(g, talk, p) && p.stepId == ticket.stepId && AtTicket(g, p.stepId) && Decided(g, talk) <= log
  }

  ghost predicate TicketsFollow(g: Graph, tickets: seq<Ticket>, log: seq<Verdict>) {
    forall k :: 0 <= k < |tickets| ==> TicketFollows(g, tickets[k], log)
  }

  ghost predicate Refines(w: World, g: Graph, i: Id) {
    && (exists talk :: Follows(w, g, i, talk))
    && TicketsFollow(g, TicketsOf(w.tables.tickets, i), ResumedOf(w.tables.approvals, w.resumed, i))
  }

  /** One more input and the tickets after it. */
  lemma TalkOn(g: Graph, talk: seq<Sessions.Input>, p: Position, x: Sessions.Input, m: nat)
    requires Arrives(g, talk, p) && Moved(g, p, x).Some? && Arrival(g, Moved(g, p, x).value, Dones(m)).Some?
    ensures var p1 := Moved(g, p, x).value;
            && Arrives(g, talk + [x], p1)
            && Arrives(g, talk + [x] + Dones(m), Arrival(g, p1, Dones(m)).value)
            && Decided(g, talk + [x]) == Decided(g, talk) + (if x.Decide? then [Verdict(p.stepId, x.decision)] else [])
            && Decided(g, talk + [x] + Dones(m)) == Decided(g, talk + [x])
            && (!x.TicketDone? ==> Visits(g, StartAt(g), talk + [x]) == Visits(g, StartAt(g), talk))
  {
    var p1 := Moved(g, p, x).value;
    assert [x][1..] == [];
    assert Arrival(g, p, [x]) == Arrival(g, p1, []) == Some(p1);
    ArrivalJoin(g, StartAt(g), talk, [x]);
    TicketsOn(g, talk + [x], p1, m);
  }

  lemma TicketsOn(g: Graph, talk: seq<Sessions.Input>, p: Position, m: nat)
    requires Arrives(g, talk, p) && Arrival(g, p, Dones(m)).Some?
    ensures Arrives(g, talk + Dones(m), Arrival(g, p, Dones(m)).value)
    ensures Decided(g, talk + Dones(m)) == Decided(g, talk)
    ensures Visits(g, StartAt(g), talk + Dones(m)) == Visits(g, StartAt(g), talk) + Visits(g, p, Dones(m))
  {
    ArrivalJoin(g, StartAt(g), talk, Dones(m));
    DonesDecideNothing(g, p, m);
  }

  /** Each ticket passed is where the conversation stood before it was dispatched. */
  lemma {:induction false} VisitArrives(g: Graph, p: Position, m: nat, j: nat)
    requires Arrival(g, p, Dones(m)).Some? && j < m
    ensures |Visits(g, p, Dones(m))| == m && Arrival(g, p, Dones(j)).Some?
    ensures var q := Arrival(g, p, Dones(j)).value;
            q.stepId == Visits(g, p, Dones(m))[j] && AtTicket(g, q.stepId)
    decreases j
  {
    DonesDecideNothing(g, p, m);
    DonesUnfold(m);
    MovedStands(g, p, Sessions.TicketDone);
    if j > 0 {
      DonesUnfold(j);
      VisitArrives(g, Moved(g, p, Sessions.TicketDone).value, m - 1, j - 1);
    }
  }

  /** The tickets of a call whose conversation stood at `p` with these decisions. */
  lemma CallTicketsFollow(g: Graph, id: Id, tickets: seq<Ticket>, tickets': seq<Ticket>, row: Instance, row': Instance,
                          talk: seq<Sessions.Input>, p: Position, m: nat, extra: seq<Ticket>, log: seq<Verdict>)
    requires Arrives(g, talk, p) && Told(g, id, tickets, tickets', row, row', p, m, extra)
    requires TicketsFollow(g, tickets, log) && Decided(g, talk) <= log
    ensures TicketsFollow(g, tickets', log)
  {
    var steps := Visits(g, p, Dones(m));
    DonesDecideNothing(g, p, m);
    forall k | 0 <= k < |tickets'| ensures TicketFollows(g, tickets'[k], log) {
      if |tickets| <= k < |tickets| + m {
        VisitArrives(g, p, m, k - |tickets|);
        StandingTicketFollows(g, talk, p, k - |tickets|, Sent(id, steps)[k - |tickets|], log);
      } else if k == |tickets| + m {
        StandingTicketFollows(g, talk, p, m, extra[0], log);
      }
    }
  }

  lemma StandingTicketFollows(g: Graph, talk: seq<Sessions.Input>, p: Position, j: nat, ticket: Ticket, log: seq<Verdict>)
    requires Arrives(g, talk, p) && Decided(g, talk) <= log && Arrival(g, p, Dones(j)).Some?
    requires ticket.stepId == Arrival(g, p, Dones(j)).value.stepId && AtTicket(g, ticket.stepId)
    ensures TicketFollows(g, ticket, log)
  {
    TicketsOn(g, talk, p, j);
    assert Arrives(g, talk + Dones(j), Arrival(g, p, Dones(j)).value);
  }

  lemma TicketsFollowLonger(g: Graph, tickets: seq<Ticket>, log: seq<Verdict>, log': seq<Verdict>)
    requires TicketsFollow(g, tickets, log) && log <= log'
    ensures TicketsFollow(g, tickets, log')
  {
    forall k | 0 <= k < |tickets| ensures TicketFollows(g, tickets[k], log') {
      assert TicketFollows(g, tickets[k], log);
      var talk, p :| Arrives(g, talk, p) && p.stepId == tickets[k].stepId && AtTicket(g, p.stepId) && Decided(g, talk) <= log;
      assert Decided(g, talk) <= log';
    }
  }

  lemma CalledFollows(w: World, w': World, g: Graph, i: Id, talk: seq<Sessions.Input>, x: Sessions.Input, m: nat, extra: seq<Ticket>)
    requires Happened(w, w', g, i, Called(x, m, extra)) && Follows(w, g, i, talk)
    requires TicketsFollow(g, TicketsOf(w.tables.tickets, i), ResumedOf(w.tables.approvals, w.resumed, i))
    ensures Refines(w', g, i)
  {
    var row, row' := w.tables.instances[i], w'.tables.instances[i];
    var past, log := ResumedOf(w.tables.approvals, w.resumed, i), ResumedOf(w'.tables.approvals, w'.resumed, i);
    var p := Moved(g, PositionOf(row), x).value;
    TalkOn(g, talk, PositionOf(row), x, m);
    TicketsFollowLonger(g, TicketsOf(w.tables.tickets, i), past, log);
    CallTicketsFollow(g, i, TicketsOf(w.tables.tickets, i), TicketsOf(w'.tables.tickets, i), row, row', talk + [x], p, m, extra, log);
    if SavedAt(g, row', Arrival(g, p, Dones(m)).value, extra) {
      assert Follows(w', g, i, talk + [x] + Dones(m));
    } else {
      assert Follows(w', g, i, talk);
    }
  }

  /** Each step carries the conversation on or leaves it where it was. */
  lemma StepRefines(w: World, action: Action, g: Graph, i: Id)
    requires Inv(w) && Enabled(w, action) && InstanceOf(w.tables, i, g) && Refines(w, g, i)
    ensures InstanceOf(Next(w, action).tables, i, g) && Refines(Next(w, action), g, i)
  {
    var w' := Next(w, action);
    var talk :| Follows(w, g, i, talk);
    var e := StepHappens(w, action, g, i);
    if Stuck(w, i) {
      StuckStays(w, action, i);
    }
    if e.Called? {
      CalledFollows(w, w', g, i, talk, e.input, e.m, e.extra);
    } else {
      TicketsFollowLonger(g, TicketsOf(w.tables.tickets, i), ResumedOf(w.tables.approvals, w.resumed, i),
                          ResumedOf(w'.tables.approvals, w'.resumed, i));
      assert Follows(w', g, i, talk);
    }
  }

  lemma BeganRefines(w: World, g: Graph, i: Id, m: nat, extra: seq<Ticket>)
    requires Began(w, g, i, m, extra)
    ensures Refines(w, g, i)
  {
    var row, p := w.tables.instances[i], StartAt(g);
    var inserted :| PositionOf(inserted) == p && Told(g, i, [], TicketsOf(w.tables.tickets, i), inserted, row, p, m, extra);
    assert Arrives(g, [], p);
    TicketsOn(g, [], p, m);
    assert [] + Dones(m) == Dones(m);
    CallTicketsFollow(g, i, [], TicketsOf(w.tables.tickets, i), inserted, row, [], p, m, extra, []);
    if SavedAt(g, row, Arrival(g, p, Dones(m)).value, extra) {
      assert Follows(w, g, i, Dones(m));
    } else {
      assert Follows(w, g, i, []);
    }
  }

  ghost predicate InstanceRefines(w: World, i: Id)
    requires i in w.tables.instances
  {
    && w.tables.instances[i].definitionId in w.tables.definitions
    && Refines(w, w.tables.definitions[w.tables.instances[i].definitionId], i)
  }

  ghost predicate AllRefine(w: World) {
    forall i :: i in w.tables.instances ==> InstanceRefines(w, i)
  }

  lemma NoTicketYet(t: Tables, i: Id)
    requires Traced(t) && i !in t.instances
    ensures TicketsOf(t.tickets, i) == []
  {
    forall k | 0 <= k < |t.tickets| ensures t.tickets[k].instanceId != i {
      assert TicketTraced(t, t.tickets[k]);
    }
    OtherTickets([], t.tickets, i);
  }

  lemma StepRefinesAll(w: World, action: Action)
    requires Inv(w) && Traced(w.tables) && Enabled(w, action) && AllRefine(w)
    ensures AllRefine(Next(w, action))
  {
    var w' := Next(w, action);
    forall i | i in w'.tables.instances ensures InstanceRefines(w', i) {
      if i in w.tables.instances {
        assert InstanceRefines(w, i);
        StepRefines(w, action, w.tables.definitions[w.tables.instances[i].definitionId], i);
      } else {
        NewInstanceIsStarted(w, action, i);
        NoTicketYet(w.tables, i);
        var g, m, extra := StartHappens(w, action.itemId, action.requester, action.env);
        BeganRefines(w', g, i, m, extra);
      }
    }
  }

  lemma {:induction false} RunRefines(w: World, actions: seq<Action>)
    requires Inv(w) && Traced(w.tables) && Legal(w, actions) && AllRefine(w)
    ensures AllRefine(Run(w, actions))
    decreases |actions|
  {
    if actions != [] {
      StepRefinesAll(w, actions[0]);
      StepTraced(w, actions[0]);
      StepKeeps(w, actions[0]);
      RunRefines(Next(w, actions[0]), actions[1..]);
    }
  }

  /**
   * In every reachable state each row is the state of an engine conversation whose decisions are, one for one, the
   * resumptions of its instance's approvals, and each ticket was sent where such a conversation stood.
   */
  lemma RunsRefineConversations(w: World, actions: seq<Action>, i: Id)
    requires Initial(w) && Legal(w, actions) && i in Run(w, actions).tables.instances
    ensures InstanceRefines(Run(w, actions), i)
  {
    InitialInv(w);
    RunRefines(w, actions);
  }
}
