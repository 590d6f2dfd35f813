/** Every accepted conversation is carried on by some run of the protocol. */
module Simulation {
  import opened Workflow
  import Engine
  import Sessions
  import opened Conversations
  import opened Tables
  import opened Orchestrator
  import opened Calls
  import opened TicketLoop
  import opened Protocol
  import opened Guarantees
  import opened Processes
  import opened Tellings
  import opened Refinement
  import opened SecondTicket

  lemma {:induction false} FreshId(keys: set<nat>) returns (n: nat)
    ensures n !in keys && forall k :: k in keys ==> k < n
    decreases |keys|
  {
    if keys == {} {
      n := 0;
    } else {
      var k :| k in keys;
      var before := FreshId(keys - {k});
      n := if before <= k then k + 1 else before;
      forall j | j in keys ensures j < n {
        assert j == k || j in keys - {k};
      }
    }
  }

  /** At rest at `p`: saved there, with an approval to decide if it awaits one. */
  ghost predicate Rests(w: World, g: Graph, id: Id, p: Position) {
    && InstanceOf(w.tables, id, g)
    && var row := w.tables.instances[id];
       && PositionOf(row) == p && Agrees(g, row)
       && (row.status == InstanceStatus.AwaitingApproval ==> exists a :: Decidable(w.tables, id, p.stepId, a))
  }

  ghost predicate Decidable(t: Tables, id: Id, stepId: StepId, a: Id) {
    IsPending(t, a) && t.approvals[a].instanceId == id && t.approvals[a].stepId == stepId
  }

  /** The same call with something else drawn for it. */
  function WithEnv(action: Action, env: Env): Action {
    match action
    case StartRequest(itemId, requester, _) => StartRequest(itemId, requester, env)
    case AnswerQuestion(id, requester, key, value, _) => AnswerQuestion(id, requester, key, value, env)
    case Proceed(pid, listing, _) => Proceed(pid, listing, env)
    case _ => action
  }

  /** Whatever is drawn for it, the action applies the outcome at `p` to the tables `t`. */
  ghost predicate AboutToCall(w: World, action: Action, t: Tables, g: Graph, id: Id, p: Position) {
    && InstanceOf(t, id, g) && Standing(g, p)
    && forall env :: Drawn(w, env) && env.instanceId == id ==>
         && Enabled(w, WithEnv(action, env))
         && Next(w, WithEnv(action, env)).tables == Applying(t, g, id, p, env).tables
  }

  function Serves(p: Position, g: Graph): seq<Dispatch>
    requires g.Find(p.stepId).Some?
  {
    if KindAt(g, p).SubmitTicket? then [Delivered] else []
  }

  /** A call at its last position: saved there, or one ticket delivered from there. */
  lemma LastPosition(t: Tables, g: Graph, id: Id, q: Position, env: Env)
    requires InstanceOf(t, id, g) && Standing(g, q) && env.approver.Some? && env.dispatches == Serves(q, g)
    ensures var t' := Applying(t, g, id, q, env).tables;
            && InstanceOf(t', id, g)
            && t'.tickets == t.tickets + (if AtTicket(g, q.stepId) then [Ticket(id, q.stepId, true)] else [])
            && (!AtTicket(g, q.stepId) ==> PositionOf(t'.instances[id]) == q && Agrees(g, t'.instances[id]))
            && (KindAt(g, q).WaitForApproval? ==> Decidable(t', id, q.stepId, env.approvalId))
  {
    var outcome := Engine.OutcomeOf(KindAt(g, q));
    ApplyEffect(t, g, id, q.answers, q.stepId, outcome, env);
    if KindAt(g, q).SubmitTicket? {
      DeliverOnly(t, g, id, q, env);
    }
  }

  lemma DeliverOnly(t: Tables, g: Graph, id: Id, q: Position, env: Env)
    requires Standing(g, q) && KindAt(g, q).SubmitTicket? && env.dispatches == [Delivered]
    ensures Applying(t, g, id, q, env).tables.tickets == t.tickets + [Ticket(id, q.stepId, true)]
  {
    assert env.dispatches[1..] == [];
    var r := Engine.ResumeAfterTicketDispatch(g, q.stepId, q.answers);
    if r.Ok? {
      var rest := env.(dispatches := env.dispatches[1..]);
      var t1 := WithTicket(t, id, q.stepId, Delivered);
      assert ApplyOutcome(t1, g, id, q.answers, r.stepId, r.outcome, rest).tables.tickets == t1.tickets;
    }
  }

  /** The call, with deliveries for all tickets that follow. */
  lemma MakeCall(w: World, action: Action, t: Tables, g: Graph, id: Id, p: Position, m: nat) returns (act: Action, w': World)
    requires AboutToCall(w, action, t, g, id, p) && Arrival(g, p, Dones(m)).Some?
    ensures Enabled(w, act) && w' == Next(w, act) && InstanceOf(w'.tables, id, g)
    ensures var q := Arrival(g, p, Dones(m)).value;
            && |TicketsOf(w'.tables.tickets, id)| == |TicketsOf(t.tickets, id)| + m + (if AtTicket(g, q.stepId) then 1 else 0)
            && (!AtTicket(g, q.stepId) ==> Rests(w', g, id, q))
  {
    var q := Arrival(g, p, Dones(m)).value;
    ArrivalStands(g, p, Dones(m));
    var unused := FreshId(w.tables.approvals.Keys);
    var env := Env(w.clock, id, unused, Some(0), Deliveries(m) + Serves(q, g));
    assert Drawn(w, env);
    act := WithEnv(action, env);
    w' := Next(w, act);
    ServeTickets(t, g, id, p, env, m, Serves(q, g));
    var t1 := Delivering(t, g, id, p, m);
    LastPosition(t1, g, id, q, env.(dispatches := Serves(q, g)));
    DonesDecideNothing(g, p, m);
    TicketsOfJoin(t.tickets, Sent(id, Visits(g, p, Dones(m))), id);
    TicketsOfJoin(t1.tickets, if AtTicket(g, q.stepId) then [Ticket(id, q.stepId, true)] else [], id);
    assert t1.tickets + [] == t1.tickets;
  }

  lemma PrepareAnswer(w: World, g: Graph, id: Id, p: Position, x: Sessions.Input) returns (action: Action)
    requires Rests(w, g, id, p) && x.Answer? && Moved(g, p, x).Some?
    ensures AboutToCall(w, action, w.tables, g, id, Moved(g, p, x).value)
  {
    MovedStands(g, p, x);
    action := AnswerQuestion(id, w.tables.instances[id].requester, x.key, x.value, Env(0, 0, 0, None, []));
  }

  /** The decider reads, flips and reads again; its resumption is the call. */
  lemma PrepareDecision(w: World, g: Graph, id: Id, p: Position, decision: ApprovalDecision)
    returns (actions: seq<Action>, w': World, action: Action)
    requires Rests(w, g, id, p) && Moved(g, p, Sessions.Decide(decision)).Some?
    ensures Leads(w, actions, w') && w'.tables.tickets == w.tables.tickets
    ensures AboutToCall(w', action, w'.tables, g, id, Moved(g, p, Sessions.Decide(decision)).value)
  {
    MovedStands(g, p, Sessions.Decide(decision));
    var a :| Decidable(w.tables, id, p.stepId, a);
    var row;
    var pid := FreshId(w.procs.Keys);
    actions, w', row := DecideUpTo(w, a, pid, decision);
    action := Proceed(pid, [], Env(0, 0, 0, None, []));
    ResumeIsCall(w', g, id, p, decision, pid, a, row);
  }

  lemma DecideUpTo(w: World, a: Id, pid: nat, decision: ApprovalDecision) returns (actions: seq<Action>, w': World, row: Approval)
    requires IsPending(w.tables, a) && pid !in w.procs
    ensures Leads(w, actions, w')
    ensures w'.tables.tickets == w.tables.tickets && w'.tables.instances == w.tables.instances
            && w'.tables.definitions == w.tables.definitions
    ensures pid in w'.procs && w'.procs[pid] == DeciderResuming(a, row, decision) && SameOrigin(row, w.tables.approvals[a])
  {
    var unused := FreshId(w.tables.approvals.Keys);
    var step := Proceed(pid, [], Env(w.clock, 0, unused, None, []));
    var spawn := Spawn(pid, DeciderReading(a, w.tables.approvals[a].approver, decision, None));
    LeadsFurther(w, [], w, spawn);
    var w1 := Next(w, spawn);
    LeadsFurther(w, [] + [spawn], w1, step);
    var w2 := Next(w1, step);
    LeadsFurther(w, [] + [spawn] + [step], w2, step);
    var w3 := Next(w2, step);
    LeadsFurther(w, [] + [spawn] + [step] + [step], w3, step);
    w' := Next(w3, step);
    actions := [] + [spawn] + [step] + [step] + [step];
    row := w'.procs[pid].row;
  }

  lemma ResumeIsCall(w: World, g: Graph, id: Id, p: Position, decision: ApprovalDecision, pid: nat, a: Id, row: Approval)
    requires InstanceOf(w.tables, id, g) && PositionOf(w.tables.instances[id]) == p && Moved(g, p, Sessions.Decide(decision)).Some?
    requires pid in w.procs && w.procs[pid] == DeciderResuming(a, row, decision) && row.instanceId == id && row.stepId == p.stepId
    ensures AboutToCall(w, Proceed(pid, [], Env(0, 0, 0, None, [])), w.tables, g, id, Moved(g, p, Sessions.Decide(decision)).value)
  {
    MovedStands(g, p, Sessions.Decide(decision));
  }

  lemma Prepare(w: World, g: Graph, id: Id, p: Position, x: Sessions.Input) returns (actions: seq<Action>, w': World, action: Action)
    requires Rests(w, g, id, p) && Moved(g, p, x).Some? && !x.TicketDone?
    ensures Leads(w, actions, w') && w'.tables.tickets == w.tables.tickets
    ensures AboutToCall(w', action, w'.tables, g, id, Moved(g, p, x).value)
  {
    if x.Answer? {
      actions, w' := [], w;
      action := PrepareAnswer(w, g, id, p, x);
    } else {
      actions, w', action := PrepareDecision(w, g, id, p, x.decision);
    }
  }

  /** The tickets a conversation starts with, and what follows them. */
  lemma {:induction false} LeadingTickets(g: Graph, p: Position, inputs: seq<Sessions.Input>) returns (m: nat)
    requires Standing(g, p) && Arrival(g, p, inputs).Some?
    ensures m <= |inputs| && inputs == Dones(m) + inputs[m..] && (m < |inputs| ==> !inputs[m].TicketDone?)
    ensures Arrival(g, p, Dones(m)).Some?
    ensures var q := Arrival(g, p, Dones(m)).value;
            && Arrival(g, q, inputs[m..]) == Arrival(g, p, inputs)
            && |Visits(g, p, inputs)| == m + |Visits(g, q, inputs[m..])|
            && (m < |inputs| ==> !AtTicket(g, q.stepId))
    decreases |inputs|
  {
    if inputs == [] || !inputs[0].TicketDone? {
      m := 0;
      assert inputs[0..] == inputs;
      if inputs != [] {
        MovedStands(g, p, inputs[0]);
      }
    } else {
      MovedStands(g, p, inputs[0]);
      m := LeadingTickets(g, Moved(g, p, inputs[0]).value, inputs[1..]);
      TicketInFront(inputs, m);
      DonesInFront(g, p, m);
      m := m + 1;
    }
  }

  lemma TicketInFront(inputs: seq<Sessions.Input>, m: nat)
    requires inputs != [] && inputs[0] == Sessions.TicketDone && m < |inputs| && inputs[1..] == Dones(m) + inputs[1..][m..]
    ensures inputs[1..][m..] == inputs[m + 1..] && inputs == Dones(m + 1) + inputs[m + 1..]
  {
    DonesUnfold(m + 1);
    assert inputs == [inputs[0]] + inputs[1..];
  }

  /** The rest of the conversation, call by call. */
  lemma {:induction false} Simulate(w: World, action: Action, t: Tables, g: Graph, id: Id, p: Position, inputs: seq<Sessions.Input>)
    returns (actions: seq<Action>, w': World)
    requires AboutToCall(w, action, t, g, id, p) && Arrival(g, p, inputs).Some?
    ensures Leads(w, actions, w') && InstanceOf(w'.tables, id, g)
    ensures var q := Arrival(g, p, inputs).value;
            && |TicketsOf(w'.tables.tickets, id)|
               == |TicketsOf(t.tickets, id)| + |Visits(g, p, inputs)| + (if AtTicket(g, q.stepId) then 1 else 0)
            && (!AtTicket(g, q.stepId) ==> Rests(w', g, id, q))
    decreases |inputs|
  {
    var m := LeadingTickets(g, p, inputs);
    var q := Arrival(g, p, Dones(m)).value;
    var act;
    act, w' := MakeCall(w, action, t, g, id, p, m);
    LeadsFurther(w, [], w, act);
    actions := [] + [act];
    if m < |inputs| {
      var rest := inputs[m..];
      var more, w1, next := Prepare(w', g, id, q, rest[0]);
      LeadsJoin(w, actions, w', more, w1);
      var tail;
      tail, w' := Simulate(w1, next, w1.tables, g, id, Moved(g, q, rest[0]).value, rest[1..]);
      LeadsJoin(w, actions + more, w1, tail, w');
      actions := actions + more + tail;
    }
  }

  /** A server with one service, offered by the graph `g`. */
  function Offering(g: Graph): World {
    World(Tables(map[0 := CatalogItem(true, 0)], map[0 := g], map[], map[], []), map[], 0, [])
  }

  /** Every conversation is carried on by a run, which sends a ticket for each it passes and one where it then stands. */
  lemma SomeRunCarriesOn(g: Graph, talk: seq<Sessions.Input>, p: Position) returns (actions: seq<Action>, w': World)
    requires Arrives(g, talk, p)
    ensures Leads(Offering(g), actions, w') && InstanceOf(w'.tables, 0, g)
    ensures |TicketsOf(w'.tables.tickets, 0)| == |Visits(g, StartAt(g), talk)| + (if AtTicket(g, p.stepId) then 1 else 0)
    ensures !AtTicket(g, p.stepId) ==> Rests(w', g, 0, p)
  {
    var w := Offering(g);
    StartStands(g);
    var t := InsertInstance(w.tables, 0, 0, 0, Engine.Start(g).stepId);
    var action := StartRequest(0, 0, Env(0, 0, 0, None, []));
    actions, w' := Simulate(w, action, t, g, 0, StartAt(g), talk);
  }

  /** An answer whose ticket is delivered and whose call then breaks off: one ticket more, and the question still open. */
  lemma AnswerAgain(w: World, g: Graph, id: Id, p: Position, x: Sessions.Input) returns (action: Action)
    requires Rests(w, g, id, p) && x.Answer? && Moved(g, p, x).Some?
    requires AtTicket(g, Moved(g, p, x).value.stepId) && MayBreakOff(g, Moved(g, p, x).value)
    ensures Enabled(w, action) && Rests(Next(w, action), g, id, p)
    ensures |TicketsOf(Next(w, action).tables.tickets, id)| == |TicketsOf(w.tables.tickets, id)| + 1
  {
    var prepared := PrepareAnswer(w, g, id, p, x);
    var s := Moved(g, p, x).value;
    var unused := FreshId(w.tables.approvals.Keys);
    var env := Env(w.clock, id, unused, None, [Delivered]);
    assert Drawn(w, env);
    action := WithEnv(prepared, env);
    BreaksOff(w.tables, g, id, s, env);
    TicketsOfJoin(w.tables.tickets, [Ticket(id, s.stepId, true)], id);
    MovedStands(g, p, x);
  }

  lemma BreaksOff(t: Tables, g: Graph, id: Id, s: Position, env: Env)
    requires AtTicket(g, s.stepId) && MayBreakOff(g, s) && env.approver.None? && env.dispatches == [Delivered]
    ensures Applying(t, g, id, s, env).tables == t.(tickets := t.tickets + [Ticket(id, s.stepId, true)])
  {
    var r := Engine.ResumeAfterTicketDispatch(g, s.stepId, s.answers);
    if r.Ok? {
      var rest := env.(dispatches := env.dispatches[1..]);
      var t1 := WithTicket(t, id, s.stepId, Delivered);
      assert ApplyOutcome(t1, g, id, s.answers, r.stepId, r.outcome, rest).tables == t1;
    }
  }

  lemma RetryGivesTwo(g: Graph) returns (actions: seq<Action>)
    requires TicketRetried(g)
    ensures GivesTwo(Offering(g), actions, g, 0)
  {
    var talk: seq<Sessions.Input>, s :| Arrives(g, talk, s) && AtTicket(g, s.stepId) && MayBreakOff(g, s)
                                        && talk != [] && talk[|talk| - 1].Answer?;
    var front, x := talk[..|talk| - 1], talk[|talk| - 1];
    assert talk == front + [x];
    var p := BeforeLast(g, front, x, s);
    MovedStands(g, p, x);
    var before, w := SomeRunCarriesOn(g, front, p);
    actions := AnswersTwice(Offering(g), before, w, g, p, x);
  }

  lemma AnswersTwice(w0: World, before: seq<Action>, w: World, g: Graph, p: Position, x: Sessions.Input) returns (actions: seq<Action>)
    requires Initial(w0) && Leads(w0, before, w) && Rests(w, g, 0, p) && x.Answer? && Moved(g, p, x).Some?
    requires AtTicket(g, Moved(g, p, x).value.stepId) && MayBreakOff(g, Moved(g, p, x).value)
    ensures GivesTwo(w0, actions, g, 0)
  {
    var first := AnswerAgain(w, g, 0, p, x);
    var second := AnswerAgain(Next(w, first), g, 0, p, x);
    LeadsFurther(w0, before, w, first);
    LeadsFurther(w0, before + [first], Next(w, first), second);
    actions := before + [first] + [second];
  }

  lemma AgainGivesTwo(g: Graph) returns (actions: seq<Action>)
    requires TicketAgain(g)
    ensures GivesTwo(Offering(g), actions, g, 0)
  {
    var talk, p :| Arrives(g, talk, p) && AtTicket(g, p.stepId) && Visits(g, StartAt(g), talk) != [];
    var w';
    actions, w' := SomeRunCarriesOn(g, talk, p);
  }

  /**
   * The tickets repository documents at most one ticket per instance. Some run breaks that for an instance of `g`
   * exactly when a conversation stands at a ticket step with a ticket behind it, or an answer leads to a ticket behind
   * which the call may break off.
   */
  lemma SecondTicketIff(g: Graph)
    ensures (exists w, actions, i :: GivesTwo(w, actions, g, i)) <==> TicketAgain(g) || TicketRetried(g)
  {
    if w, actions, i :| GivesTwo(w, actions, g, i) {
      TwoTicketsNeed(w, actions, g, i);
    }
    if TicketAgain(g) {
      var actions := AgainGivesTwo(g);
    } else if TicketRetried(g) {
      var actions := RetryGivesTwo(g);
    }
  }
}
