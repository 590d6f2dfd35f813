/** Two small graphs whose instances are given two tickets, with the runs that do it. */
module TicketExamples {
  import opened Workflow
  import Engine
  import opened Tables
  import opened Orchestrator
  import opened Protocol
  import opened Refinement
  import opened Guarantees
  import opened SecondTicket
  import opened Simulation

  lemma StopsHere(g: Graph, i: nat, answers: Answers)
    requires g.DistinctIds() && i < |g.steps| && !g.steps[i].kind.Branch?
    ensures g.Find(g.steps[i].id) == Some(g.steps[i])
    ensures Engine.Advance(g, g.steps[i].id, answers) == Engine.Ok(g.steps[i].id, Engine.OutcomeOf(g.steps[i].kind))
  {
    FindAt(g, i);
  }

  /** A ticket, another ticket, and the end. */
  const Chained := Graph("s", [
    Step("s", "", SubmitTicket("u")),
    Step("u", "", SubmitTicket("e")),
    Step("e", "", End(EndOutcome.Completed))
  ])

  const STARTED := StartRequest(0, 3, Env(0, 7, 0, None, [Delivered, Delivered]))

  lemma ChainedStops(answers: Answers)
    ensures Engine.Start(Chained) == Engine.Ok("s", Engine.ReadyToSubmitTicket)
    ensures Engine.ResumeAfterTicketDispatch(Chained, "s", answers) == Engine.Ok("u", Engine.ReadyToSubmitTicket)
    ensures Engine.ResumeAfterTicketDispatch(Chained, "u", answers) == Engine.Ok("e", Engine.Finished(EndOutcome.Completed))
  {
    assert "s"[0] != "u"[0] && "s"[0] != "e"[0] && "u"[0] != "e"[0];
    StopsHere(Chained, 0, map[]);
    StopsHere(Chained, 1, answers);
    StopsHere(Chained, 2, answers);
  }

  /** One start serves both tickets. */
  lemma ChainSendsTwo()
    ensures GivesTwo(Offering(Chained), [STARTED], Chained, 7)
    ensures Run(Offering(Chained), [STARTED]).tables.tickets == [Ticket(7, "s", true), Ticket(7, "u", true)]
  {
    var w := Offering(Chained);
    ChainedStops(map[]);
    var env := STARTED.env;
    var env1 := env.(dispatches := [Delivered]);
    var env2 := env.(dispatches := []);
    assert env.dispatches[1..] == [Delivered] && env1.dispatches[1..] == [];
    var t0 := InsertInstance(w.tables, 7, 0, 3, "s");
    var t1 := WithTicket(t0, 7, "s", Delivered);
    var t2 := WithTicket(t1, 7, "u", Delivered);
    var a := ApplyOutcome(t2, Chained, 7, map[], "e", Engine.Finished(EndOutcome.Completed), env2);
    assert ApplyOutcome(t1, Chained, 7, map[], "u", Engine.ReadyToSubmitTicket, env1) == a;
    assert ApplyOutcome(t0, Chained, 7, map[], "s", Engine.ReadyToSubmitTicket, env) == a;
    assert Next(w, STARTED).tables == a.tables;
    assert [STARTED][1..] == [] && Run(w, [STARTED]) == Next(w, STARTED);
    assert a.tables.tickets == [] + [Ticket(7, "s", true), Ticket(7, "u", true)];
    TicketsOfJoin([], [Ticket(7, "s", true), Ticket(7, "u", true)], 7);
  }

  /** A question, the ticket, an approval and the end: one ticket step, passed once by every conversation. */
  const Retried := Graph("q", [
    Step("q", "", Question("k", InputType.Text, true, [], "s")),
    Step("s", "", SubmitTicket("w")),
    Step("w", "", WaitForApproval(ManagerOfRequester, "e", "e", None)),
    Step("e", "", End(EndOutcome.Completed))
  ])

  const ASKED := StartRequest(0, 3, Env(0, 7, 0, None, []))
  const ANSWERED := AnswerQuestion(7, 3, "k", JNull, Env(0, 7, 0, None, [Delivered]))

  lemma RetriedStops(answers: Answers)
    ensures Engine.Start(Retried) == Engine.Ok("q", Engine.AwaitingAnswer("k"))
    ensures Engine.SubmitAnswer(Retried, "q", answers, "k", JNull)
         == (Engine.Ok("s", Engine.ReadyToSubmitTicket), answers["k" := JNull])
    ensures Engine.ResumeAfterTicketDispatch(Retried, "s", answers) == Engine.Ok("w", Engine.AwaitingApproval(ManagerOfRequester, None))
  {
    assert "q"[0] != "s"[0] && "q"[0] != "w"[0] && "q"[0] != "e"[0] && "s"[0] != "w"[0] && "s"[0] != "e"[0] && "w"[0] != "e"[0];
    StopsHere(Retried, 0, map[]);
    StopsHere(Retried, 1, answers["k" := JNull]);
    StopsHere(Retried, 2, answers);
  }

  /** The instance as the start leaves it, with some tickets already sent. */
  function Asking(tickets: seq<Ticket>): World {
    var w := Offering(Retried);
    w.(tables := w.tables.(
      instances := map[7 := Instance(0, 3, InstanceStatus.InProgress, "q", map[], None)],
      tickets := tickets))
  }

  /** Without an approver the answer sends its ticket, is refused, and leaves the question as open as before. */
  lemma AnswerSendsOne(tickets: seq<Ticket>)
    ensures Enabled(Asking(tickets), ANSWERED) && Next(Asking(tickets), ANSWERED) == Asking(tickets + [Ticket(7, "s", true)])
  {
    var t := Asking(tickets).tables;
    var env := ANSWERED.env;
    var answers: Answers := map["k" := JNull];
    RetriedStops(map[]);
    RetriedStops(answers);
    var t1 := WithTicket(t, 7, "s", Delivered);
    var rest := env.(dispatches := env.dispatches[1..]);
    assert ApplyOutcome(t1, Retried, 7, answers, "w", Engine.AwaitingApproval(ManagerOfRequester, None), rest).tables == t1;
    assert ApplyOutcome(t, Retried, 7, answers, "s", Engine.ReadyToSubmitTicket, env).tables == t1;
  }

  lemma StartAsks()
    ensures Enabled(Offering(Retried), ASKED) && Next(Offering(Retried), ASKED) == Asking([])
  {
    RetriedStops(map[]);
  }

  lemma RunOfThree(w0: World, w1: World, w2: World, w3: World, a: Action, b: Action)
    requires Enabled(w0, a) && Next(w0, a) == w1 && Enabled(w1, b) && Next(w1, b) == w2 && Enabled(w2, b) && Next(w2, b) == w3
    ensures Legal(w0, [a, b, b]) && Run(w0, [a, b, b]) == w3
  {
    assert [a, b, b][1..] == [b, b] && [b, b][1..] == [b] && [b][1..] == [];
    assert Legal(w3, []) && Run(w3, []) == w3;
    assert Legal(w2, [b]) && Run(w2, [b]) == w3;
    assert Legal(w1, [b, b]) && Run(w1, [b, b]) == w3;
  }

  lemma RetryRun()
    ensures Legal(Offering(Retried), [ASKED, ANSWERED, ANSWERED])
    ensures Run(Offering(Retried), [ASKED, ANSWERED, ANSWERED]) == Asking([Ticket(7, "s", true), Ticket(7, "s", true)])
  {
    var one := Ticket(7, "s", true);
    StartAsks();
    AnswerSendsOne([]);
    AnswerSendsOne([one]);
    assert [] + [one] == [one] && [one] + [one] == [one, one];
    RunOfThree(Offering(Retried), Asking([]), Asking([one]), Asking([one, one]), ASKED, ANSWERED);
  }

  /** The requester answers, is refused, answers again: the one ticket step has been served twice. */
  lemma RetrySendsTwo()
    ensures GivesTwo(Offering(Retried), [ASKED, ANSWERED, ANSWERED], Retried, 7)
    ensures Run(Offering(Retried), [ASKED, ANSWERED, ANSWERED]).tables.tickets == [Ticket(7, "s", true), Ticket(7, "s", true)]
  {
    var two := [Ticket(7, "s", true), Ticket(7, "s", true)];
    RetryRun();
    TicketsOfJoin([], two, 7);
    assert [] + two == two;
  }
}
