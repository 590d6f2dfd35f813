/** Conversations and protocol runs over generated graphs. */
module SeedRuns {
  import opened Workflow
  import Engine
  import opened Sessions
  import opened Conversations
  import opened Seed
  import opened Tables
  import opened Orchestrator
  import opened Calls
  import opened Protocol
  import opened Guarantees
  import opened Provenance
  import opened SecondTicket

  /** The inputs a step of this kind accepts. */
  predicate Suits(kind: StepKind, input: Input) {
    match kind
    case Question(key, _, _, _, _) => input.Answer? && input.key == key
    case WaitForApproval(_, _, _, _) => input.Decide?
    case SubmitTicket(_) => input.TicketDone?
    case _ => false
  }

  function Destination(kind: StepKind, input: Input): StepId
    requires Suits(kind, input)
  {
    match kind
    case WaitForApproval(_, onApprove, onReject, _) => if input.decision.Approve? then onApprove else onReject
    case Question(_, _, _, _, next) => next
    case SubmitTicket(next) => next
  }

  /** The call at position `i` is accepted exactly when the input suits the step, and moves to the later position `j`. */
  ghost predicate MovesOn(g: Graph, i: nat, input: Input, r: Engine.EngineResult, j: nat)
    requires i < |g.steps|
  {
    && (r.Ok? <==> Suits(g.steps[i].kind, input))
    && (r.Ok? ==>
          && i < j < |g.steps| && g.steps[j].id == Destination(g.steps[i].kind, input) && !g.steps[j].kind.Branch?
          && r == Engine.Ok(g.steps[j].id, Engine.OutcomeOf(g.steps[j].kind)))
  }

  /** A generated graph accepts exactly the suitable inputs, and each moves to a later position. */
  lemma BuiltCall(pattern: Pattern, n: Names, questions: seq<SeedQuestion>, i: nat, answers: Answers, input: Input) returns (j: nat)
    requires Apart(n) && i < |BuiltSteps(pattern, n, questions)|
    ensures var g := BuiltWith(pattern, n, questions);
            MovesOn(g, i, input, Call(g, g.steps[i].id, answers, input).0, j)
  {
    var g := BuiltWith(pattern, n, questions);
    var kind := g.steps[i].kind;
    BuiltAdvance(pattern, n, questions, i, answers);
    if Suits(kind, input) {
      j := EdgesGoForward(pattern, n, questions, i, Destination(kind, input));
      BuiltAdvance(pattern, n, questions, j, answers);
      BuiltAdvance(pattern, n, questions, j, Call(g, g.steps[i].id, answers, input).1);
    } else {
      j := 0;
    }
  }

  lemma BuiltQuestionNext(pattern: Pattern, n: Names, questions: seq<SeedQuestion>, i: nat, j: nat, input: Input)
    requires Apart(n) && i < |questions| && j < |BuiltSteps(pattern, n, questions)|
    requires var steps := BuiltSteps(pattern, n, questions);
             i < |steps| && Suits(steps[i].kind, input) && steps[j].id == Destination(steps[i].kind, input)
    ensures j == i + 1
  {
    BuiltAt(pattern, n, questions, i);
    BuiltAt(pattern, n, questions, i + 1);
    BuiltDistinct(pattern, n, questions);
    var g := BuiltWith(pattern, n, questions);
    assert g.steps[j].id == g.steps[i + 1].id;
  }

  function Decides(inputs: seq<Input>): nat {
    if inputs == [] then 0 else (if inputs[0].Decide? then 1 else 0) + Decides(inputs[1..])
  }

  /** Approval steps at or after a position. */
  function ApprovalsFrom(pattern: Pattern, questions: nat, i: nat): nat {
    var all := match pattern case SimpleTicket => 0 case InfoOnly => 0 case ManagerApprovalTicket => 1 case _ => 2;
    if i <= questions then all else if i - questions < all then all - (i - questions) else 0
  }

  lemma DecideUsesApproval(pattern: Pattern, n: Names, questions: seq<SeedQuestion>, i: nat)
    requires i < |BuiltSteps(pattern, n, questions)| && BuiltSteps(pattern, n, questions)[i].kind.WaitForApproval?
    ensures forall j :: i < j ==> ApprovalsFrom(pattern, |questions|, j) + 1 <= ApprovalsFrom(pattern, |questions|, i)
  {
    BuiltAt(pattern, n, questions, i);
  }

  /** Questions are answered in order, by their own keys, and nothing else is answered. */
  ghost predicate AnswersInOrder(questions: seq<SeedQuestion>, i: nat, inputs: seq<Input>) {
    forall k :: 0 <= k < |inputs| ==>
      if i + k < |questions| then inputs[k].Answer? && inputs[k].key == questions[i + k].fieldKey else !inputs[k].Answer?
  }

  /** The result after `k` inputs asks the next question, while there is one. */
  ghost predicate AsksInOrder(questions: seq<SeedQuestion>, i: nat, results: seq<Engine.EngineResult>) {
    forall k :: 0 <= k < |results| && i + k < |questions| ==>
      results[k] == Engine.Ok(QuestionId(i + k), Engine.AwaitingAnswer(questions[i + k].fieldKey))
  }

  /** The position of a graph's first end step: what comes before it can be left, what follows cannot. */
  function FirstEnd(pattern: Pattern, questions: nat): nat {
    questions + match pattern case InfoOnly => 0 case SimpleTicket => 1 case ManagerApprovalTicket => 2 case _ => 3
  }

  lemma EndsAfterFirst(pattern: Pattern, n: Names, questions: seq<SeedQuestion>, i: nat, input: Input)
    requires i < |BuiltSteps(pattern, n, questions)| && Suits(BuiltSteps(pattern, n, questions)[i].kind, input)
    ensures i < FirstEnd(pattern, |questions|)
  {
    BuiltAt(pattern, n, questions, i);
  }

  /** What an all-accepted continuation from position `i` looks like. */
  ghost predicate Shape(pattern: Pattern, n: Names, questions: seq<SeedQuestion>, i: nat, inputs: seq<Input>, results: seq<Engine.EngineResult>) {
    && |results| == |inputs|
    && (inputs == [] || |inputs| + i <= FirstEnd(pattern, |questions|))
    && Decides(inputs) <= ApprovalsFrom(pattern, |questions|, i)
    && AnswersInOrder(questions, i, inputs)
    && AsksInOrder(questions, i + 1, results)
  }

  lemma {:induction false} RunFrom(pattern: Pattern, n: Names, questions: seq<SeedQuestion>, i: nat, answers: Answers, inputs: seq<Input>)
    requires Apart(n) && i < |BuiltSteps(pattern, n, questions)|
    requires AllOk(ResultsFrom(BuiltWith(pattern, n, questions), BuiltSteps(pattern, n, questions)[i].id, answers, inputs))
    ensures Shape(pattern, n, questions, i, inputs,
                  ResultsFrom(BuiltWith(pattern, n, questions), BuiltSteps(pattern, n, questions)[i].id, answers, inputs))
    decreases |inputs|
  {
    if inputs == [] {
      BuiltAt(pattern, n, questions, i);
    } else {
      var g := BuiltWith(pattern, n, questions);
      var id := g.steps[i].id;
      var (r, recorded) := Call(g, id, answers, inputs[0]);
      AllOkUnfolds(g, id, answers, inputs);
      var j := BuiltCall(pattern, n, questions, i, answers, inputs[0]);
      RunFrom(pattern, n, questions, j, recorded, inputs[1..]);
      ShapeStep(pattern, n, questions, i, j, inputs, r, ResultsFrom(g, g.steps[j].id, recorded, inputs[1..]));
    }
  }

  lemma AllOkUnfolds(g: Graph, id: StepId, answers: Answers, inputs: seq<Input>)
    requires inputs != [] && AllOk(ResultsFrom(g, id, answers, inputs))
    ensures var (r, recorded) := Call(g, id, answers, inputs[0]);
            && r.Ok? && AllOk(ResultsFrom(g, r.stepId, recorded, inputs[1..]))
            && ResultsFrom(g, id, answers, inputs) == [r] + ResultsFrom(g, r.stepId, recorded, inputs[1..])
  {
    var (r, recorded) := Call(g, id, answers, inputs[0]);
    var results := ResultsFrom(g, id, answers, inputs);
    assert results[0] == r;
    AllOkTail(r, results[1..]);
  }

  lemma AllOkTail(r: Engine.EngineResult, rest: seq<Engine.EngineResult>)
    requires AllOk([r] + rest)
    ensures AllOk(rest)
  {
    var all := [r] + rest;
    assert forall k :: 0 <= k < |rest| ==> rest[k] == all[k + 1];
  }

  lemma ShapeStep(pattern: Pattern, n: Names, questions: seq<SeedQuestion>, i: nat, j: nat, inputs: seq<Input>, r: Engine.EngineResult, rest: seq<Engine.EngineResult>)
    requires Apart(n) && inputs != [] && i < j < |BuiltSteps(pattern, n, questions)|
    requires Suits(BuiltSteps(pattern, n, questions)[i].kind, inputs[0])
    requires var steps := BuiltSteps(pattern, n, questions);
             && steps[j].id == Destination(steps[i].kind, inputs[0]) && !steps[j].kind.Branch?
             && r == Engine.Ok(steps[j].id, Engine.OutcomeOf(steps[j].kind))
    requires Shape(pattern, n, questions, j, inputs[1..], rest)
    ensures Shape(pattern, n, questions, i, inputs, [r] + rest)
  {
    EndsAfterFirst(pattern, n, questions, i, inputs[0]);
    if i < |questions| {
      ShapeQuestion(pattern, n, questions, i, j, inputs, r, rest);
    } else {
      ShapeTail(pattern, n, questions, i, j, inputs, r, rest);
    }
  }

  lemma ShapeQuestion(pattern: Pattern, n: Names, questions: seq<SeedQuestion>, i: nat, j: nat, inputs: seq<Input>, r: Engine.EngineResult, rest: seq<Engine.EngineResult>)
    requires i < |questions|
    requires Apart(n) && inputs != [] && i < j < |BuiltSteps(pattern, n, questions)|
    requires Suits(BuiltSteps(pattern, n, questions)[i].kind, inputs[0])
    requires var steps := BuiltSteps(pattern, n, questions);
             && steps[j].id == Destination(steps[i].kind, inputs[0]) && !steps[j].kind.Branch?
             && r == Engine.Ok(steps[j].id, Engine.OutcomeOf(steps[j].kind))
    requires Shape(pattern, n, questions, j, inputs[1..], rest)
    ensures Shape(pattern, n, questions, i, inputs, [r] + rest)
  {
    BuiltAt(pattern, n, questions, i);
    BuiltAt(pattern, n, questions, j);
    BuiltQuestionNext(pattern, n, questions, i, j, inputs[0]);
    AskAgain(questions, i, inputs, r, rest);
  }

  lemma ShapeTail(pattern: Pattern, n: Names, questions: seq<SeedQuestion>, i: nat, j: nat, inputs: seq<Input>, r: Engine.EngineResult, rest: seq<Engine.EngineResult>)
    requires |questions| <= i < FirstEnd(pattern, |questions|)
    requires Apart(n) && inputs != [] && i < j < |BuiltSteps(pattern, n, questions)|
    requires Suits(BuiltSteps(pattern, n, questions)[i].kind, inputs[0])
    requires var steps := BuiltSteps(pattern, n, questions);
             && steps[j].id == Destination(steps[i].kind, inputs[0]) && !steps[j].kind.Branch?
             && r == Engine.Ok(steps[j].id, Engine.OutcomeOf(steps[j].kind))
    requires Shape(pattern, n, questions, j, inputs[1..], rest)
    ensures Shape(pattern, n, questions, i, inputs, [r] + rest)
  {
    BuiltAt(pattern, n, questions, i);
    TailInput(pattern, n, i - |questions|, inputs[0]);
    DoneAsking(questions, i, j, inputs, r, rest);
    if inputs[0].Decide? {
      DecideUsesApproval(pattern, n, questions, i);
    }
  }

  lemma TailInput(pattern: Pattern, n: Names, i: nat, input: Input)
    requires i < |Tail(pattern, n)| && Suits(Tail(pattern, n)[i].kind, input)
    ensures !input.Answer?
  {
  }

  lemma AskAgain(questions: seq<SeedQuestion>, i: nat, inputs: seq<Input>, r: Engine.EngineResult, rest: seq<Engine.EngineResult>)
    requires inputs != [] && i < |questions| && inputs[0].Answer? && inputs[0].key == questions[i].fieldKey
    requires AnswersInOrder(questions, i + 1, inputs[1..]) && AsksInOrder(questions, i + 2, rest)
    requires i + 1 < |questions| ==> r == Engine.Ok(QuestionId(i + 1), Engine.AwaitingAnswer(questions[i + 1].fieldKey))
    ensures AnswersInOrder(questions, i, inputs) && AsksInOrder(questions, i + 1, [r] + rest)
  {
    assert forall k :: 1 <= k < |inputs| ==> inputs[k] == inputs[1..][k - 1];
    assert forall k :: 1 <= k < |rest| + 1 ==> ([r] + rest)[k] == rest[k - 1];
  }

  lemma DoneAsking(questions: seq<SeedQuestion>, i: nat, j: nat, inputs: seq<Input>, r: Engine.EngineResult, rest: seq<Engine.EngineResult>)
    requires inputs != [] && |questions| <= i < j && !inputs[0].Answer?
    requires AnswersInOrder(questions, j, inputs[1..])
    ensures AnswersInOrder(questions, i, inputs) && AsksInOrder(questions, i + 1, [r] + rest)
  {
    assert forall k :: 1 <= k < |inputs| ==> inputs[k] == inputs[1..][k - 1];
  }

  /**
   * Every conversation with a generated graph, refusals or not: the accepted inputs answer the questions once each and
   * in order, answer nothing else, take at most two decisions and are at most three more than the questions. The
   * results that are no refusals ask the questions in that order.
   */
  lemma SeededConversation(pattern: Pattern, questions: seq<SeedQuestion>, inputs: seq<Input>)
    ensures var g := Built(pattern, questions);
            Engine.Start(g).Ok?
            && var took, results := Accepted(g, StartAt(g), inputs), OkOnly(Results(g, inputs));
               && |results| == |took| + 1 && |took| <= |questions| + 3
               && Decides(took) <= 2
               && AnswersInOrder(questions, 0, took)
               && AsksInOrder(questions, 0, results)
  {
    var n := NamesFor(pattern);
    var g := BuiltWith(pattern, n, questions);
    NamesForApart(pattern);
    BuiltStarts(pattern, n, questions);
    AcceptedConversation(g, inputs);
    SeededConversationWith(pattern, n, questions, Accepted(g, StartAt(g), inputs));
  }

  lemma BuiltStarts(pattern: Pattern, n: Names, questions: seq<SeedQuestion>)
    requires Apart(n)
    ensures Engine.Start(BuiltWith(pattern, n, questions)).Ok?
  {
    BuiltAdvance(pattern, n, questions, 0, map[]);
  }

  /** The same without refusals. */
  lemma SeededConversationWith(pattern: Pattern, n: Names, questions: seq<SeedQuestion>, inputs: seq<Input>)
    requires Apart(n) && AllOk(Results(BuiltWith(pattern, n, questions), inputs))
    ensures var results := Results(BuiltWith(pattern, n, questions), inputs);
            && |results| == |inputs| + 1 && |inputs| <= |questions| + 3
            && Decides(inputs) <= 2
            && AnswersInOrder(questions, 0, inputs)
            && AsksInOrder(questions, 0, results)
  {
    var g := BuiltWith(pattern, n, questions);
    BuiltAdvance(pattern, n, questions, 0, map[]);
    var rest := ResultsFrom(g, g.steps[0].id, map[], inputs);
    var results := Results(g, inputs);
    assert results == [Engine.Start(g)] + rest;
    assert forall k :: 0 <= k < |rest| ==> rest[k] == results[k + 1];
    RunFrom(pattern, n, questions, 0, map[], inputs);
    BuiltAt(pattern, n, questions, 0);
    forall k | 0 <= k < |results| && k < |questions|
      ensures results[k] == Engine.Ok(QuestionId(k), Engine.AwaitingAnswer(questions[k].fieldKey))
    {
      if k > 0 {
        assert results[k] == rest[k - 1];
      }
    }
  }

  /** Short of `Finished`, some input is always accepted: no conversation with a generated graph gets stuck. */
  lemma SeededNeverStuck(pattern: Pattern, n: Names, questions: seq<SeedQuestion>, i: nat, answers: Answers) returns (input: Input)
    requires Apart(n) && i < |BuiltSteps(pattern, n, questions)| && !BuiltSteps(pattern, n, questions)[i].kind.End?
    ensures Call(BuiltWith(pattern, n, questions), BuiltSteps(pattern, n, questions)[i].id, answers, input).0.Ok?
  {
    var kind := BuiltSteps(pattern, n, questions)[i].kind;
    BuiltAt(pattern, n, questions, i);
    input := match kind
      case Question(key, _, _, _, _) => Answer(key, JNull)
      case WaitForApproval(_, _, _, _) => Decide(Approve)
      case _ => TicketDone;
    var j := BuiltCall(pattern, n, questions, i, answers, input);
  }

  /** The outcome a conversation stands at after its accepted inputs. */
  ghost predicate Over(results: seq<Engine.EngineResult>) {
    results != [] && results[|results| - 1].Ok? && results[|results| - 1].outcome.Finished?
  }

  /**
   * A conversation without a refusal that has not reached an end can always go on without one. As its length is
   * bounded, every conversation that goes on reaches `Finished`.
   */
  lemma SeededConversationGoesOn(pattern: Pattern, questions: seq<SeedQuestion>, inputs: seq<Input>) returns (input: Input)
    requires AllOk(Results(Built(pattern, questions), inputs)) && !Over(Results(Built(pattern, questions), inputs))
    ensures AllOk(Results(Built(pattern, questions), inputs + [input]))
  {
    var n := NamesFor(pattern);
    NamesForApart(pattern);
    input := GoesOnWith(pattern, n, questions, inputs);
  }

  lemma GoesOnWith(pattern: Pattern, n: Names, questions: seq<SeedQuestion>, inputs: seq<Input>) returns (input: Input)
    requires Apart(n)
    requires var results := Results(BuiltWith(pattern, n, questions), inputs); AllOk(results) && !Over(results)
    ensures AllOk(Results(BuiltWith(pattern, n, questions), inputs + [input]))
  {
    var g := BuiltWith(pattern, n, questions);
    var p, i := StandsUnfinished(g, inputs);
    input := SeededNeverStuck(pattern, n, questions, i, p.answers);
    SaysNext(g, inputs, p, input);
  }

  lemma StandsUnfinished(g: Graph, inputs: seq<Input>) returns (p: Position, i: nat)
    requires AllOk(Results(g, inputs)) && !Over(Results(g, inputs))
    ensures Arrives(g, inputs, p) && i < |g.steps| && g.steps[i].id == p.stepId && !g.steps[i].kind.End?
  {
    ArrivesIffAllOk(g, inputs);
    p :| Arrives(g, inputs, p);
    ArrivesSays(g, inputs, p);
    FindIffHasId(g, p.stepId);
    i :| 0 <= i < |g.steps| && g.steps[i] == g.Find(p.stepId).value;
  }

  /** After a generated graph's ticket the request is over. */
  lemma BuiltTicketEnds(pattern: Pattern, n: Names, questions: seq<SeedQuestion>)
    requires Apart(n)
    ensures TicketEnds(BuiltWith(pattern, n, questions))
  {
    var g := BuiltWith(pattern, n, questions);
    forall s: StepId, answers: Answers | AtTicket(g, s)
      ensures var r := Engine.ResumeAfterTicketDispatch(g, s, answers); r.Ok? && r.outcome.Finished?
    {
      FindIffHasId(g, s);
      var i :| 0 <= i < |g.steps| && g.steps[i] == g.Find(s).value;
      TicketAtEnds(pattern, n, questions, i, answers);
    }
  }

  lemma TicketAtEnds(pattern: Pattern, n: Names, questions: seq<SeedQuestion>, i: nat, answers: Answers)
    requires Apart(n) && i < |BuiltSteps(pattern, n, questions)| && BuiltSteps(pattern, n, questions)[i].kind.SubmitTicket?
    ensures var r := Engine.ResumeAfterTicketDispatch(BuiltWith(pattern, n, questions), BuiltSteps(pattern, n, questions)[i].id, answers);
            r.Ok? && r.outcome.Finished?
  {
    var j := BuiltCall(pattern, n, questions, i, answers, TicketDone);
    TicketThenEnd(pattern, n, questions, i, j);
  }

  lemma TicketThenEnd(pattern: Pattern, n: Names, questions: seq<SeedQuestion>, i: nat, j: nat)
    requires Apart(n) && i < j < |BuiltSteps(pattern, n, questions)|
    requires var steps := BuiltSteps(pattern, n, questions);
             steps[i].kind.SubmitTicket? && steps[j].id == steps[i].kind.next
    ensures BuiltSteps(pattern, n, questions)[j].kind.End?
  {
    BuiltAt(pattern, n, questions, i);
    BuiltAt(pattern, n, questions, j);
    TicketLeadsToEnd(pattern, n, i - |questions|, j - |questions|);
  }

  lemma TicketLeadsToEnd(pattern: Pattern, n: Names, i: nat, j: nat)
    requires Apart(n) && i < j < |Tail(pattern, n)| && Tail(pattern, n)[i].kind.SubmitTicket?
    requires Tail(pattern, n)[j].id == Tail(pattern, n)[i].kind.next
    ensures Tail(pattern, n)[j].kind.End?
  {
  }

  /** The step before `to` on a path that does not start there. */
  lemma LastEdge(g: Graph, rows: Approvals, id: Id, to: StepId) returns (from: StepId)
    requires Reached(g, rows, id, to) && to != g.entry
    ensures Reached(g, rows, id, from) && Edge(g, rows, id, from, to)
  {
    var path :| Path(g, rows, id, path) && path[|path| - 1] == to;
    var before := path[..|path| - 1];
    from := path[|path| - 2];
    assert Edge(g, rows, id, path[|path| - 2], path[|path| - 1]);
    forall k | 0 <= k < |before| - 1 ensures Edge(g, rows, id, before[k], before[k + 1]) {
      assert Edge(g, rows, id, path[k], path[k + 1]);
    }
    assert Path(g, rows, id, before) && before[|before| - 1] == from;
  }

  /** In a generated graph only the given step's edges lead to its approval's target. */
  lemma OnlyFrom(pattern: Pattern, n: Names, questions: seq<SeedQuestion>, rows: Approvals, id: Id, from: StepId, to: StepId) returns (i: nat)
    requires Apart(n) && Edge(BuiltWith(pattern, n, questions), rows, id, from, to)
    ensures var steps := BuiltSteps(pattern, n, questions);
            i < |steps| && steps[i].id == from && to in Targets(steps[i].kind)
            && BuiltWith(pattern, n, questions).Find(from) == Some(steps[i])
  {
    var g := BuiltWith(pattern, n, questions);
    FindIffHasId(g, from);
    i :| 0 <= i < |g.steps| && g.steps[i] == g.Find(from).value;
  }

  /** `gate` is the approval whose grant leads to `to`. */
  ghost predicate Gates(pattern: Pattern, n: Names, gate: StepId, to: StepId) {
    || (pattern.ManagerApprovalTicket? && gate == n.manager.id && to == n.submit.id)
    || ((pattern.SecurityApprovalTicket? || pattern.FinanceApprovalTicket?) && gate == n.manager.id && to == n.second.id)
    || ((pattern.SecurityApprovalTicket? || pattern.FinanceApprovalTicket?) && gate == n.second.id && to == n.submit.id)
  }

  /** In the tail, only the gate's approve edge leads past the gate. */
  lemma GateInTail(pattern: Pattern, n: Names, gate: StepId, to: StepId, i: nat)
    requires Apart(n) && Gates(pattern, n, gate, to) && i < |Tail(pattern, n)| && to in Targets(Tail(pattern, n)[i].kind)
    ensures Tail(pattern, n)[i].id == gate && Tail(pattern, n)[i].kind.WaitForApproval?
    ensures Tail(pattern, n)[i].kind.onReject != to
  {
  }

  /** The questions lead to the tail's first step, which no gate guards. */
  lemma GateNotFirst(pattern: Pattern, n: Names, questions: seq<SeedQuestion>, gate: StepId, to: StepId, i: nat)
    requires Apart(n) && Gates(pattern, n, gate, to) && i < |questions|
    ensures to !in Targets(QuestionStep(questions, i, Tail(pattern, n)[0].id).kind) && to != QuestionId(i)
  {
    assert QuestionId(i)[0] == 'q' && QuestionId(i + 1)[0] == 'q';
    assert Tail(pattern, n)[0].id == n.manager.id;
  }

  /** Whoever is past a gate had it granted. */
  lemma GrantedBefore(pattern: Pattern, n: Names, questions: seq<SeedQuestion>, rows: Approvals, id: Id, gate: StepId, to: StepId)
    requires Apart(n) && Gates(pattern, n, gate, to) && Reached(BuiltWith(pattern, n, questions), rows, id, to)
    ensures Backed(rows, id, gate, Approve) && Reached(BuiltWith(pattern, n, questions), rows, id, gate)
  {
    var g := BuiltWith(pattern, n, questions);
    NotEntry(pattern, n, questions, gate, to);
    var from := LastEdge(g, rows, id, to);
    var i := OnlyFrom(pattern, n, questions, rows, id, from, to);
    BuiltAt(pattern, n, questions, i);
    if i < |questions| {
      GateNotFirst(pattern, n, questions, gate, to, i);
    } else {
      GateInTail(pattern, n, gate, to, i - |questions|);
    }
  }

  lemma NotEntry(pattern: Pattern, n: Names, questions: seq<SeedQuestion>, gate: StepId, to: StepId)
    requires Apart(n) && Gates(pattern, n, gate, to)
    ensures to != BuiltWith(pattern, n, questions).entry
  {
    BuiltAt(pattern, n, questions, 0);
    if questions != [] {
      GateNotFirst(pattern, n, questions, gate, to, 0);
    }
  }

  /** What must have been granted before a ticket of this pattern. */
  ghost predicate Granted(pattern: Pattern, n: Names, rows: Approvals, id: Id) {
    match pattern
    case ManagerApprovalTicket => Backed(rows, id, n.manager.id, Approve)
    case SecurityApprovalTicket => Backed(rows, id, n.manager.id, Approve) && Backed(rows, id, n.second.id, Approve)
    case FinanceApprovalTicket => Backed(rows, id, n.manager.id, Approve) && Backed(rows, id, n.second.id, Approve)
    case _ => true
  }

  lemma TicketStep(pattern: Pattern, n: Names, questions: seq<SeedQuestion>, s: StepId)
    requires AtTicket(BuiltWith(pattern, n, questions), s)
    ensures s == n.submit.id
  {
    var g := BuiltWith(pattern, n, questions);
    FindIffHasId(g, s);
    var i :| 0 <= i < |g.steps| && g.steps[i] == g.Find(s).value;
    TicketPosition(pattern, n, questions, i);
  }

  lemma TicketPosition(pattern: Pattern, n: Names, questions: seq<SeedQuestion>, i: nat)
    requires i < |BuiltSteps(pattern, n, questions)| && BuiltSteps(pattern, n, questions)[i].kind.SubmitTicket?
    ensures BuiltSteps(pattern, n, questions)[i].id == n.submit.id
  {
    BuiltAt(pattern, n, questions, i);
  }

  lemma TicketGranted(pattern: Pattern, n: Names, questions: seq<SeedQuestion>, rows: Approvals, id: Id, s: StepId)
    requires Apart(n) && AtTicket(BuiltWith(pattern, n, questions), s) && Reached(BuiltWith(pattern, n, questions), rows, id, s)
    ensures Granted(pattern, n, rows, id)
  {
    TicketStep(pattern, n, questions, s);
    if pattern.ManagerApprovalTicket? {
      GrantedBefore(pattern, n, questions, rows, id, n.manager.id, n.submit.id);
    } else if pattern.SecurityApprovalTicket? || pattern.FinanceApprovalTicket? {
      GrantedBefore(pattern, n, questions, rows, id, n.second.id, n.submit.id);
      GrantedBefore(pattern, n, questions, rows, id, n.manager.id, n.second.id);
    }
  }

  /**
   * In every run, whenever an instance of a generated approval graph has a ticket, all of its pattern's approvals have
   * been granted to that very instance, and the ticket is the only one it ever gets.
   */
  lemma SeededTicketNeedsApprovals(w: World, actions: seq<Action>, k: nat, pattern: Pattern, questions: seq<SeedQuestion>)
    requires Initial(w) && Legal(w, actions) && k < |Run(w, actions).tables.tickets|
    requires var t := Run(w, actions).tables;
             var id := t.tickets[k].instanceId;
             id in t.instances && t.instances[id].definitionId in t.definitions
             && t.definitions[t.instances[id].definitionId] == Built(pattern, questions)
    ensures var t := Run(w, actions).tables;
            var id := t.tickets[k].instanceId;
            Granted(pattern, NamesFor(pattern), t.approvals, id) && |TicketsOf(t.tickets, id)| <= 1
  {
    var t := Run(w, actions).tables;
    var n, id := NamesFor(pattern), t.tickets[k].instanceId;
    NamesForApart(pattern);
    TicketsAreTraced(w, actions, k);
    TicketGranted(pattern, n, questions, t.approvals, id, t.tickets[k].stepId);
    BuiltTicketEnds(pattern, n, questions);
    AtMostOneTicket(w, actions, BuiltWith(pattern, n, questions), id);
  }
}
