/** When an instance can be given a second ticket. */
module SecondTicket {
  import opened Workflow
  import Engine
  import Sessions
  import opened Conversations
  import opened Tables
  import opened Orchestrator
  import opened Calls
  import opened Protocol
  import opened ProtocolSteps
  import opened Guarantees
  import opened Provenance
  import opened Settlement
  import opened Tellings
  import opened Refinement

  /** Some conversation, a ticket behind it, stands at a ticket step again. */
  ghost predicate TicketAgain(g: Graph) {
    exists talk, p :: Arrives(g, talk, p) && AtTicket(g, p.stepId) && Visits(g, StartAt(g), talk) != []
  }

  /** After this ticket the engine may find no way on, or the next approver may not be found. */
  ghost predicate MayBreakOff(g: Graph, p: Position) {
    var r := Engine.ResumeAfterTicketDispatch(g, p.stepId, p.answers);
    r.Err? || r.outcome.AwaitingApproval?
  }

  /** Some answer leads to a ticket behind which the call may break off, leaving the question open to the same answer. */
  ghost predicate TicketRetried(g: Graph) {
    exists talk: seq<Sessions.Input>, p :: Arrives(g, talk, p) && AtTicket(g, p.stepId) && MayBreakOff(g, p)
                      && talk != [] && talk[|talk| - 1].Answer?
  }

  lemma FirstTicket(g: Graph, talk: seq<Sessions.Input>, p: Position)
    requires !TicketAgain(g) && Arrives(g, talk, p) && AtTicket(g, p.stepId)
    ensures Visits(g, StartAt(g), talk) == []
  {
  }

  /** The last ticket passed is the first, too. */
  lemma OneVisit(g: Graph, talk: seq<Sessions.Input>, p: Position, m: nat)
    requires !TicketAgain(g) && Arrives(g, talk, p) && Arrival(g, p, Dones(m)).Some? && m > 0
    ensures Visits(g, StartAt(g), talk) == [] && m == 1 && AtTicket(g, p.stepId)
  {
    VisitArrives(g, p, m, m - 1);
    TicketsOn(g, talk, p, m - 1);
    DonesDecideNothing(g, p, m - 1);
    FirstTicket(g, talk + Dones(m - 1), Arrival(g, p, Dones(m - 1)).value);
  }

  /** A call that entered the graph at `p`, in a graph that stands at no second ticket. */
  lemma CallSendsOne(g: Graph, id: Id, tickets: seq<Ticket>, tickets': seq<Ticket>, row: Instance, row': Instance,
                     talk: seq<Sessions.Input>, p: Position, m: nat, extra: seq<Ticket>)
    requires !TicketAgain(g) && Arrives(g, talk, p) && Told(g, id, tickets, tickets', row, row', p, m, extra)
    requires tickets == Sent(id, Visits(g, StartAt(g), talk)) && |tickets| <= 1
    ensures |tickets'| <= 1
    ensures SavedAt(g, row', Arrival(g, p, Dones(m)).value, extra) && extra == [] ==>
              Arrives(g, talk + Dones(m), PositionOf(row')) && tickets' == Sent(id, Visits(g, StartAt(g), talk + Dones(m)))
    ensures !SavedAt(g, row', Arrival(g, p, Dones(m)).value, extra) && tickets' != tickets ==>
              AtTicket(g, p.stepId) && MayBreakOff(g, p)
  {
    var q := Arrival(g, p, Dones(m)).value;
    TicketsOn(g, talk, p, m);
    DonesDecideNothing(g, p, m);
    if m > 0 {
      OneVisit(g, talk, p, m);
      DonesUnfold(1);
      assert q == Moved(g, p, Sessions.TicketDone).value;
      MovedStands(g, p, Sessions.TicketDone);
    }
    if AtTicket(g, q.stepId) {
      FirstTicket(g, talk + Dones(m), q);
    }
    SentJoins(id, Visits(g, StartAt(g), talk), Visits(g, p, Dones(m)));
  }

  lemma SentJoins(id: Id, a: seq<StepId>, b: seq<StepId>)
    ensures Sent(id, a + b) == Sent(id, a) + Sent(id, b)
  {
  }

  /** The tickets are those its conversation passed; or it is over and done with one. */
  ghost predicate Counted(w: World, g: Graph, i: Id) {
    && InstanceOf(w.tables, i, g)
    && var tickets := TicketsOf(w.tables.tickets, i);
       && |tickets| <= 1
       && (Stuck(w, i) || exists talk :: Passed(w, g, i, talk))
  }

  ghost predicate Passed(w: World, g: Graph, i: Id, talk: seq<Sessions.Input>)
    requires InstanceOf(w.tables, i, g)
  {
    && Arrives(g, talk, PositionOf(w.tables.instances[i]))
    && TicketsOf(w.tables.tickets, i) == Sent(i, Visits(g, StartAt(g), talk))
  }

  lemma AnswerRetries(g: Graph, talk: seq<Sessions.Input>, x: Sessions.Input, p: Position)
    requires Arrives(g, talk + [x], p)
    ensures x.Answer? && AtTicket(g, p.stepId) && MayBreakOff(g, p) ==> TicketRetried(g)
  {
    var longer := talk + [x];
    assert longer[|longer| - 1] == x;
  }

  lemma CalledCounts(w: World, w': World, g: Graph, i: Id, x: Sessions.Input, m: nat, extra: seq<Ticket>)
    requires !TicketAgain(g) && !TicketRetried(g) && Inv(w')
    requires Happened(w, w', g, i, Called(x, m, extra)) && Counted(w, g, i)
    ensures Counted(w', g, i)
  {
    var row, row' := w.tables.instances[i], w'.tables.instances[i];
    var before, after := TicketsOf(w.tables.tickets, i), TicketsOf(w'.tables.tickets, i);
    var p := Moved(g, PositionOf(row), x).value;
    var talk :| Passed(w, g, i, talk);
    TalkOn(g, talk, PositionOf(row), x, m);
    AnswerRetries(g, talk, x, p);
    CallSendsOne(g, i, before, after, row, row', talk + [x], p, m, extra);
    if row'.status.Terminal() {
      TerminalIsStuck(w', i);
    }
    CountedAfter(w, w', g, i, talk, x, p, m, extra);
  }

  lemma CountedAfter(w: World, w': World, g: Graph, i: Id, talk: seq<Sessions.Input>, x: Sessions.Input, p: Position, m: nat, extra: seq<Ticket>)
    requires InstanceOf(w.tables, i, g) && InstanceOf(w'.tables, i, g) && Passed(w, g, i, talk)
    requires |TicketsOf(w'.tables.tickets, i)| <= 1 && Arrival(g, p, Dones(m)).Some?
    requires w'.tables.instances[i].status.Terminal() ==> Stuck(w', i)
    requires var row' := w'.tables.instances[i];
             var q, after := Arrival(g, p, Dones(m)).value, TicketsOf(w'.tables.tickets, i);
             if SavedAt(g, row', q, extra)
             then extra == [] ==> Passed(w', g, i, talk + [x] + Dones(m))
             else row' == w.tables.instances[i] && (Stuck(w', i) || after == TicketsOf(w.tables.tickets, i))
    ensures Counted(w', g, i)
  {
    var row' := w'.tables.instances[i];
    if SavedAt(g, row', Arrival(g, p, Dones(m)).value, extra) {
      if extra == [] {
        assert Passed(w', g, i, talk + [x] + Dones(m));
      }
    } else if !Stuck(w', i) {
      assert Passed(w', g, i, talk);
    }
  }

  lemma StepCounts(w: World, action: Action, g: Graph, i: Id)
    requires !TicketAgain(g) && !TicketRetried(g)
    requires Inv(w) && Enabled(w, action) && Counted(w, g, i)
    ensures Counted(Next(w, action), g, i)
  {
    var w' := Next(w, action);
    StepKeeps(w, action);
    var e := StepHappens(w, action, g, i);
    if e.Called? {
      CalledCounts(w, w', g, i, e.input, e.m, e.extra);
    } else if Stuck(w, i) {
      StuckStays(w, action, i);
    } else {
      var talk :| Passed(w, g, i, talk);
      assert Passed(w', g, i, talk);
    }
  }

  lemma BeganCounts(w: World, g: Graph, i: Id, m: nat, extra: seq<Ticket>)
    requires !TicketAgain(g) && Inv(w) && Began(w, g, i, m, extra)
    ensures Counted(w, g, i)
  {
    var row, p := w.tables.instances[i], StartAt(g);
    var tickets := TicketsOf(w.tables.tickets, i);
    var inserted :| PositionOf(inserted) == p && Told(g, i, [], tickets, inserted, row, p, m, extra);
    assert Arrives(g, [], p) && Sent(i, []) == [];
    CallSendsOne(g, i, [], tickets, inserted, row, [], p, m, extra);
    if SavedAt(g, row, Arrival(g, p, Dones(m)).value, extra) {
      if extra == [] {
        assert Passed(w, g, i, [] + Dones(m));
      } else {
        TerminalIsStuck(w, i);
      }
    }
  }

  ghost predicate AllCounted(w: World) {
    forall g, i :: InstanceOf(w.tables, i, g) && !TicketAgain(g) && !TicketRetried(g) ==> Counted(w, g, i)
  }

  lemma StepCountsAll(w: World, action: Action)
    requires Inv(w) && Traced(w.tables) && Enabled(w, action) && AllCounted(w)
    ensures AllCounted(Next(w, action))
  {
    var w' := Next(w, action);
    StepKeeps(w, action);
    forall g, i | InstanceOf(w'.tables, i, g) && !TicketAgain(g) && !TicketRetried(g) ensures Counted(w', g, i) {
      if i in w.tables.instances {
        DefinitionStays(w, action, i);
        assert InstanceOf(w.tables, i, g);
        StepCounts(w, action, g, i);
      } else {
        NewInstanceIsStarted(w, action, i);
        NoTicketYet(w.tables, i);
        var h, m, extra := StartHappens(w, action.itemId, action.requester, action.env);
        BeganCounts(w', h, i, m, extra);
      }
    }
  }

  lemma {:induction false} RunCounts(w: World, actions: seq<Action>)
    requires Inv(w) && Traced(w.tables) && Legal(w, actions) && AllCounted(w)
    ensures AllCounted(Run(w, actions))
    decreases |actions|
  {
    if actions != [] {
      StepCountsAll(w, actions[0]);
      StepTraced(w, actions[0]);
      StepKeeps(w, actions[0]);
      RunCounts(Next(w, actions[0]), actions[1..]);
    }
  }

  /** A run that gives an instance of `g` two tickets. */
  ghost predicate GivesTwo(w: World, actions: seq<Action>, g: Graph, i: Id) {
    && Initial(w) && Legal(w, actions) && InstanceOf(Run(w, actions).tables, i, g)
    && |TicketsOf(Run(w, actions).tables.tickets, i)| >= 2
  }

  lemma TwoTicketsNeed(w: World, actions: seq<Action>, g: Graph, i: Id)
    requires GivesTwo(w, actions, g, i)
    ensures TicketAgain(g) || TicketRetried(g)
  {
    InitialInv(w);
    RunCounts(w, actions);
    assert TicketAgain(g) || TicketRetried(g) || Counted(Run(w, actions), g, i);
  }

  /** After any ticket of this graph the request is over. */
  ghost predicate TicketEnds(g: Graph) {
    forall s: StepId, answers: Answers :: AtTicket(g, s) ==>
      var r := Engine.ResumeAfterTicketDispatch(g, s, answers); r.Ok? && r.outcome.Finished?
  }

  /** Where a ticket ends the request, a conversation with a ticket behind it is over. */
  lemma {:induction false} OverAfterTicket(g: Graph, p: Position, inputs: seq<Sessions.Input>)
    requires TicketEnds(g) && Standing(g, p) && Arrival(g, p, inputs).Some? && Visits(g, p, inputs) != []
    ensures Standing(g, Arrival(g, p, inputs).value) && KindAt(g, Arrival(g, p, inputs).value).End?
    decreases |inputs|
  {
    var q := Moved(g, p, inputs[0]).value;
    MovedStands(g, p, inputs[0]);
    if inputs[0].TicketDone? {
      assert AtTicket(g, p.stepId) && KindAt(g, q).End?;
      if inputs[1..] != [] {
        NothingAfterEnd(g, q, inputs[1..]);
      }
    } else {
      OverAfterTicket(g, q, inputs[1..]);
    }
  }

  lemma NothingAfterEnd(g: Graph, p: Position, inputs: seq<Sessions.Input>)
    requires Standing(g, p) && KindAt(g, p).End? && inputs != []
    ensures Arrival(g, p, inputs).None?
  {
  }

  lemma EndingGivesOne(g: Graph)
    requires TicketEnds(g)
    ensures !TicketAgain(g) && !TicketRetried(g)
  {
    forall talk, p | Arrives(g, talk, p) && Visits(g, StartAt(g), talk) != [] ensures !AtTicket(g, p.stepId) {
      StartStands(g);
      OverAfterTicket(g, StartAt(g), talk);
    }
  }

  /** Where a ticket ends the request, no instance ever gets a second one, in any run and under any failures. */
  lemma AtMostOneTicket(w: World, actions: seq<Action>, g: Graph, i: Id)
    requires Initial(w) && Legal(w, actions) && InstanceOf(Run(w, actions).tables, i, g) && TicketEnds(g)
    ensures |TicketsOf(Run(w, actions).tables.tickets, i)| <= 1
  {
    EndingGivesOne(g);
    InitialInv(w);
    RunCounts(w, actions);
    assert Counted(Run(w, actions), g, i);
  }
}
