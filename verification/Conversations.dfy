/** Accepted conversations with the engine: where they lead, which tickets they pass and which decisions they take. */
module Conversations {
  import opened Workflow
  import opened Engine
  import BranchWalk
  import opened Sessions

  datatype Position = Position(stepId: StepId, answers: Answers)

  datatype Verdict = Verdict(stepId: StepId, decision: ApprovalDecision)

  ghost predicate Standing(g: Graph, p: Position) {
    g.Find(p.stepId).Some? && !g.Find(p.stepId).value.kind.Branch?
  }

  function KindAt(g: Graph, p: Position): StepKind
    requires g.Find(p.stepId).Some?
  {
    g.Find(p.stepId).value.kind
  }

  /** One accepted input. */
  function Moved(g: Graph, p: Position, input: Input): Option<Position> {
    var (r, answers) := Call(g, p.stepId, p.answers, input);
    if r.Ok? then Some(Position(r.stepId, answers)) else None
  }

  /** Where the inputs lead if each of them is accepted. */
  function Arrival(g: Graph, p: Position, inputs: seq<Input>): Option<Position>
    decreases |inputs|
  {
    if inputs == [] then Some(p)
    else
      match Moved(g, p, inputs[0])
      case None => None
      case Some(q) => Arrival(g, q, inputs[1..])
  }

  /** The ticket steps passed on the way, in order. */
  function Visits(g: Graph, p: Position, inputs: seq<Input>): seq<StepId>
    decreases |inputs|
  {
    if inputs == [] then []
    else
      (if inputs[0].TicketDone? then [p.stepId] else [])
      + match Moved(g, p, inputs[0])
        case None => []
        case Some(q) => Visits(g, q, inputs[1..])
  }

  /** The decisions taken on the way, each with the approval step it was taken at. */
  function Verdicts(g: Graph, p: Position, inputs: seq<Input>): seq<Verdict>
    decreases |inputs|
  {
    if inputs == [] then []
    else
      (if inputs[0].Decide? then [Verdict(p.stepId, inputs[0].decision)] else [])
      + match Moved(g, p, inputs[0])
        case None => []
        case Some(q) => Verdicts(g, q, inputs[1..])
  }

  function StartAt(g: Graph): Position
    requires Start(g).Ok?
  {
    Position(Start(g).stepId, map[])
  }

  /** The inputs, sent after a start, are all accepted and lead to `p`. */
  ghost predicate Arrives(g: Graph, inputs: seq<Input>, p: Position) {
    Start(g).Ok? && Arrival(g, StartAt(g), inputs) == Some(p)
  }

  /** `n` tickets dispatched one after the other. */
  function Dones(n: nat): seq<Input> {
    seq(n, _ => TicketDone)
  }

  lemma StartStands(g: Graph)
    requires Start(g).Ok?
    ensures Standing(g, StartAt(g)) && Start(g).outcome == OutcomeOf(KindAt(g, StartAt(g)))
  {
    BranchWalk.AdvanceLands(g, g.entry, map[]);
  }

  /** An accepted input fits the step it was sent to, and leads to a step that is not a branch. */
  lemma MovedStands(g: Graph, p: Position, input: Input)
    requires Moved(g, p, input).Some?
    ensures Standing(g, p) && Standing(g, Moved(g, p, input).value)
    ensures Call(g, p.stepId, p.answers, input).0.outcome == OutcomeOf(KindAt(g, Moved(g, p, input).value))
    ensures match input
            case Answer(_, _) => KindAt(g, p).Question?
            case Decide(_) => KindAt(g, p).WaitForApproval?
            case TicketDone => KindAt(g, p).SubmitTicket?
    ensures !input.Answer? ==> Moved(g, p, input).value.answers == p.answers
  {
    var kind := g.Find(p.stepId).value.kind;
    var q := Moved(g, p, input).value;
    match input
    case Answer(_, _) => BranchWalk.AdvanceLands(g, kind.next, q.answers);
    case Decide(d) => BranchWalk.AdvanceLands(g, if d.Approve? then kind.onApprove else kind.onReject, q.answers);
    case TicketDone => BranchWalk.AdvanceLands(g, kind.next, q.answers);
  }

  lemma {:induction false} ArrivalOfJoin(g: Graph, p: Position, a: seq<Input>, b: seq<Input>)
    requires Arrival(g, p, a).Some?
    ensures Arrival(g, p, a + b) == Arrival(g, Arrival(g, p, a).value, b)
    decreases |a|
  {
    if a == [] {
      assert a + b == b;
    } else {
      assert (a + b)[1..] == a[1..] + b;
      ArrivalOfJoin(g, Moved(g, p, a[0]).value, a[1..], b);
    }
  }

  lemma {:induction false} VisitsOfJoin(g: Graph, p: Position, a: seq<Input>, b: seq<Input>)
    requires Arrival(g, p, a).Some?
    ensures Visits(g, p, a + b) == Visits(g, p, a) + Visits(g, Arrival(g, p, a).value, b)
    decreases |a|
  {
    if a == [] {
      assert a + b == b;
    } else {
      var p1, q := Moved(g, p, a[0]).value, Arrival(g, p, a).value;
      assert (a + b)[1..] == a[1..] + b;
      VisitsOfJoin(g, p1, a[1..], b);
      var first := if a[0].TicketDone? then [p.stepId] else [];
      assert first + (Visits(g, p1, a[1..]) + Visits(g, q, b)) == first + Visits(g, p1, a[1..]) + Visits(g, q, b);
    }
  }

  lemma {:induction false} VerdictsOfJoin(g: Graph, p: Position, a: seq<Input>, b: seq<Input>)
    requires Arrival(g, p, a).Some?
    ensures Verdicts(g, p, a + b) == Verdicts(g, p, a) + Verdicts(g, Arrival(g, p, a).value, b)
    decreases |a|
  {
    if a == [] {
      assert a + b == b;
    } else {
      var p1, q := Moved(g, p, a[0]).value, Arrival(g, p, a).value;
      assert (a + b)[1..] == a[1..] + b;
      VerdictsOfJoin(g, p1, a[1..], b);
      var first := if a[0].Decide? then [Verdict(p.stepId, a[0].decision)] else [];
      assert first + (Verdicts(g, p1, a[1..]) + Verdicts(g, q, b)) == first + Verdicts(g, p1, a[1..]) + Verdicts(g, q, b);
    }
  }

  /** A conversation after a conversation. */
  lemma ArrivalJoin(g: Graph, p: Position, a: seq<Input>, b: seq<Input>)
    requires Arrival(g, p, a).Some?
    ensures var q := Arrival(g, p, a).value;
            && Arrival(g, p, a + b) == Arrival(g, q, b)
            && Visits(g, p, a + b) == Visits(g, p, a) + Visits(g, q, b)
            && Verdicts(g, p, a + b) == Verdicts(g, p, a) + Verdicts(g, q, b)
  {
    ArrivalOfJoin(g, p, a, b);
    VisitsOfJoin(g, p, a, b);
    VerdictsOfJoin(g, p, a, b);
  }

  lemma {:induction false} ArrivalStands(g: Graph, p: Position, inputs: seq<Input>)
    requires Standing(g, p) && Arrival(g, p, inputs).Some?
    ensures Standing(g, Arrival(g, p, inputs).value)
    decreases |inputs|
  {
    if inputs != [] {
      MovedStands(g, p, inputs[0]);
      ArrivalStands(g, Moved(g, p, inputs[0]).value, inputs[1..]);
    }
  }

  lemma ArrivedStands(g: Graph, inputs: seq<Input>, p: Position)
    requires Arrives(g, inputs, p)
    ensures Standing(g, p)
  {
    StartStands(g);
    ArrivalStands(g, StartAt(g), inputs);
  }

  lemma DonesUnfold(n: nat)
    requires n > 0
    ensures Dones(n) != [] && Dones(n)[0] == TicketDone && Dones(n)[1..] == Dones(n - 1)
    ensures Dones(n) == Dones(n - 1) + [TicketDone]
  {
  }

  /** Dispatching tickets decides nothing and answers nothing. */
  lemma {:induction false} DonesDecideNothing(g: Graph, p: Position, n: nat)
    requires Arrival(g, p, Dones(n)).Some?
    ensures Verdicts(g, p, Dones(n)) == [] && Arrival(g, p, Dones(n)).value.answers == p.answers
    ensures |Visits(g, p, Dones(n))| == n
    decreases n
  {
    if n > 0 {
      DonesUnfold(n);
      MovedStands(g, p, TicketDone);
      DonesDecideNothing(g, Moved(g, p, TicketDone).value, n - 1);
    }
  }

  /** The first inputs of an accepted conversation are one themselves. */
  lemma ArrivalPrefix(g: Graph, p: Position, a: seq<Input>, b: seq<Input>)
    requires Arrival(g, p, a + b).Some?
    ensures Arrival(g, p, a).Some?
    decreases |a|
  {
    if a != [] {
      assert (a + b)[1..] == a[1..] + b;
      ArrivalPrefix(g, Moved(g, p, a[0]).value, a[1..], b);
    }
  }

  /** Results without a refusal and arrival are the same thing. */
  lemma {:induction false} ArrivalIffAllOk(g: Graph, p: Position, inputs: seq<Input>)
    ensures AllOk(ResultsFrom(g, p.stepId, p.answers, inputs)) <==> Arrival(g, p, inputs).Some?
    decreases |inputs|
  {
    if inputs != [] {
      var results := ResultsFrom(g, p.stepId, p.answers, inputs);
      var (r, recorded) := Call(g, p.stepId, p.answers, inputs[0]);
      assert results[0] == r;
      if r.Ok? {
        ArrivalIffAllOk(g, Position(r.stepId, recorded), inputs[1..]);
        var rest := ResultsFrom(g, r.stepId, recorded, inputs[1..]);
        assert results == [r] + rest;
        assert forall k :: 0 <= k < |rest| ==> results[k + 1] == rest[k];
      }
    }
  }

  lemma ArrivesIffAllOk(g: Graph, inputs: seq<Input>)
    ensures AllOk(Results(g, inputs)) <==> exists p :: Arrives(g, inputs, p)
  {
    var results := Results(g, inputs);
    assert results[0] == Start(g);
    if Start(g).Ok? {
      var rest := ResultsFrom(g, Start(g).stepId, map[], inputs);
      assert results == [Start(g)] + rest;
      assert forall k :: 0 <= k < |rest| ==> results[k + 1] == rest[k];
      ArrivalIffAllOk(g, StartAt(g), inputs);
      if Arrival(g, StartAt(g), inputs).Some? {
        assert Arrives(g, inputs, Arrival(g, StartAt(g), inputs).value);
      }
    }
  }

  /** The inputs that are accepted, in a conversation in which any may be refused. */
  function Accepted(g: Graph, p: Position, inputs: seq<Input>): seq<Input>
    decreases |inputs|
  {
    if inputs == [] then []
    else
      match Moved(g, p, inputs[0])
      case None => Accepted(g, p, inputs[1..])
      case Some(q) => [inputs[0]] + Accepted(g, q, inputs[1..])
  }

  function OkOnly(results: seq<EngineResult>): seq<EngineResult> {
    if results == [] then []
    else (if results[0].Ok? then [results[0]] else []) + OkOnly(results[1..])
  }

  lemma OkOnlyInFront(r: EngineResult, rest: seq<EngineResult>)
    ensures OkOnly([r] + rest) == (if r.Ok? then [r] else []) + OkOnly(rest)
  {
    assert ([r] + rest)[1..] == rest;
  }

  /** Refused inputs leave nothing behind: the rest of the conversation is as if they had not been sent. */
  lemma {:induction false} RefusedLeaveNoTrace(g: Graph, p: Position, inputs: seq<Input>)
    ensures OkOnly(ResultsFrom(g, p.stepId, p.answers, inputs)) == ResultsFrom(g, p.stepId, p.answers, Accepted(g, p, inputs))
    ensures Arrival(g, p, Accepted(g, p, inputs)).Some?
    decreases |inputs|
  {
    if inputs != [] {
      var (r, recorded) := Call(g, p.stepId, p.answers, inputs[0]);
      var q := if r.Ok? then Position(r.stepId, recorded) else p;
      RefusedLeaveNoTrace(g, q, inputs[1..]);
      OkOnlyInFront(r, ResultsFrom(g, q.stepId, q.answers, inputs[1..]));
      if r.Ok? {
        AcceptedFirst(g, p, inputs[0], Accepted(g, q, inputs[1..]));
      }
    }
  }

  lemma AcceptedFirst(g: Graph, p: Position, x: Input, rest: seq<Input>)
    requires Moved(g, p, x).Some?
    ensures var q := Moved(g, p, x).value;
            && Arrival(g, p, [x] + rest) == Arrival(g, q, rest)
            && ResultsFrom(g, p.stepId, p.answers, [x] + rest)
               == [Call(g, p.stepId, p.answers, x).0] + ResultsFrom(g, q.stepId, q.answers, rest)
  {
    assert ([x] + rest)[0] == x && ([x] + rest)[1..] == rest;
  }

  /** A whole conversation and the one that sends its accepted inputs only. */
  lemma AcceptedConversation(g: Graph, inputs: seq<Input>)
    requires Start(g).Ok?
    ensures var took := Accepted(g, StartAt(g), inputs);
            OkOnly(Results(g, inputs)) == Results(g, took) && AllOk(Results(g, took))
  {
    RefusedLeaveNoTrace(g, StartAt(g), inputs);
    OkOnlyInFront(Start(g), ResultsFrom(g, Start(g).stepId, map[], inputs));
    ArrivesIffAllOk(g, Accepted(g, StartAt(g), inputs));
    assert Arrives(g, Accepted(g, StartAt(g), inputs), Arrival(g, StartAt(g), Accepted(g, StartAt(g), inputs)).value);
  }

  /** The conversation is accepted throughout, and this is its last result. */
  ghost predicate Says(g: Graph, inputs: seq<Input>, r: EngineResult) {
    && AllOk(Results(g, inputs)) && |Results(g, inputs)| == |inputs| + 1
    && Results(g, inputs)[|inputs|] == r
  }

  lemma {:induction false} ResultsAppend(g: Graph, p: Position, inputs: seq<Input>, x: Input)
    requires Arrival(g, p, inputs).Some?
    ensures |ResultsFrom(g, p.stepId, p.answers, inputs)| == |inputs|
    ensures var q := Arrival(g, p, inputs).value;
            ResultsFrom(g, p.stepId, p.answers, inputs + [x])
            == ResultsFrom(g, p.stepId, p.answers, inputs) + [Call(g, q.stepId, q.answers, x).0]
    decreases |inputs|
  {
    if inputs == [] {
      assert inputs + [x] == [x] && [x][1..] == [];
    } else {
      var p1 := Moved(g, p, inputs[0]).value;
      var r := Call(g, p.stepId, p.answers, inputs[0]).0;
      assert (inputs + [x])[1..] == inputs[1..] + [x];
      ResultsAppend(g, p1, inputs[1..], x);
      var rest := ResultsFrom(g, p1.stepId, p1.answers, inputs[1..]);
      var q := Arrival(g, p, inputs).value;
      assert [r] + (rest + [Call(g, q.stepId, q.answers, x).0]) == [r] + rest + [Call(g, q.stepId, q.answers, x).0];
    }
  }

  /** One more accepted input says what the engine answers to it where the conversation stands. */
  lemma SaysNext(g: Graph, inputs: seq<Input>, p: Position, x: Input)
    requires Arrives(g, inputs, p) && Call(g, p.stepId, p.answers, x).0.Ok?
    ensures Arrives(g, inputs + [x], Moved(g, p, x).value) && Says(g, inputs + [x], Call(g, p.stepId, p.answers, x).0)
  {
    var q := Moved(g, p, x).value;
    assert [x][1..] == [];
    assert Arrival(g, p, [x]) == Arrival(g, q, []) == Some(q);
    ArrivalJoin(g, StartAt(g), inputs, [x]);
    ResultsAppend(g, StartAt(g), inputs, x);
    ArrivesIffAllOk(g, inputs + [x]);
    assert Arrives(g, inputs + [x], q);
  }

  /** Where a conversation stood before its last input. */
  lemma BeforeLast(g: Graph, front: seq<Input>, x: Input, s: Position) returns (p: Position)
    requires Arrives(g, front + [x], s)
    ensures Arrives(g, front, p) && Moved(g, p, x) == Some(s)
  {
    ArrivalPrefix(g, StartAt(g), front, [x]);
    p := Arrival(g, StartAt(g), front).value;
    ArrivalJoin(g, StartAt(g), front, [x]);
    assert [x][1..] == [];
  }

  /** A conversation's last result is the outcome of the step it arrived at. */
  lemma ArrivesSays(g: Graph, inputs: seq<Input>, p: Position)
    requires Arrives(g, inputs, p)
    ensures Standing(g, p) && Says(g, inputs, Ok(p.stepId, OutcomeOf(KindAt(g, p))))
  {
    StartStands(g);
    if inputs == [] {
      assert Results(g, []) == [Start(g)];
    } else {
      var front, x := inputs[..|inputs| - 1], inputs[|inputs| - 1];
      assert inputs == front + [x];
      var before := BeforeLast(g, front, x, p);
      SaysNext(g, front, before, x);
      MovedStands(g, before, x);
    }
  }
}
