/** A whole conversation with the engine: start, then any inputs, each answered by one result. */
module Sessions {
  import opened Workflow
  import opened Engine
  import BranchWalk

  datatype Input = Answer(key: string, value: Json) | Decide(decision: ApprovalDecision) | TicketDone

  function Call(g: Graph, stepId: StepId, answers: Answers, input: Input): (EngineResult, Answers) {
    match input
    case Answer(key, value) => SubmitAnswer(g, stepId, answers, key, value)
    case Decide(decision) => (ResumeAfterApproval(g, stepId, answers, decision), answers)
    case TicketDone => (ResumeAfterTicketDispatch(g, stepId, answers), answers)
  }

  /** A refused input leaves the conversation where it was, as the stored row does. */
  function ResultsFrom(g: Graph, stepId: StepId, answers: Answers, inputs: seq<Input>): seq<EngineResult>
    decreases |inputs|
  {
    if inputs == [] then []
    else
      var (r, recorded) := Call(g, stepId, answers, inputs[0]);
      match r
      case Ok(next, _) => [r] + ResultsFrom(g, next, recorded, inputs[1..])
      case Err(_) => [r] + ResultsFrom(g, stepId, answers, inputs[1..])
  }

  function Results(g: Graph, inputs: seq<Input>): seq<EngineResult> {
    match Start(g)
    case Ok(stepId, _) => [Start(g)] + ResultsFrom(g, stepId, map[], inputs)
    case Err(_) => [Start(g)]
  }

  /** No input was refused. */
  ghost predicate AllOk(results: seq<EngineResult>) {
    forall k :: 0 <= k < |results| ==> results[k].Ok?
  }

  /** The engine reads the graph only through its entry and `Find`. */
  ghost predicate SameLookup(g: Graph, h: Graph) {
    g.entry == h.entry && forall id: StepId :: g.Find(id) == h.Find(id)
  }

  lemma {:induction false} LookupDecidesAdvance(g: Graph, h: Graph, id: StepId, answers: Answers, fuel: nat)
    requires SameLookup(g, h)
    ensures AdvanceWithin(g, id, answers, fuel) == AdvanceWithin(h, id, answers, fuel)
    decreases fuel
  {
    if fuel > 0 && BranchWalk.AtBranch(g, id) {
      LookupDecidesAdvance(g, h, BranchTarget(g.Find(id).value.kind, answers), answers, fuel - 1);
    }
  }

  lemma LookupDecidesCall(g: Graph, h: Graph, id: StepId, answers: Answers, input: Input)
    requires SameLookup(g, h)
    ensures Call(g, id, answers, input) == Call(h, id, answers, input)
  {
    assert g.Find(id) == h.Find(id);
    forall s: StepId, a: Answers ensures Advance(g, s, a) == Advance(h, s, a) {
      LookupDecidesAdvance(g, h, s, a, MAX_AUTO_STEPS);
    }
  }

  lemma {:induction false} LookupDecidesResults(g: Graph, h: Graph, id: StepId, answers: Answers, inputs: seq<Input>)
    requires SameLookup(g, h)
    ensures ResultsFrom(g, id, answers, inputs) == ResultsFrom(h, id, answers, inputs)
    decreases |inputs|
  {
    if inputs != [] {
      LookupDecidesCall(g, h, id, answers, inputs[0]);
      var (r, recorded) := Call(g, id, answers, inputs[0]);
      if r.Ok? {
        LookupDecidesResults(g, h, r.stepId, recorded, inputs[1..]);
      } else {
        LookupDecidesResults(g, h, id, answers, inputs[1..]);
      }
    }
  }

  lemma SameLookupSameSession(g: Graph, h: Graph, inputs: seq<Input>)
    requires SameLookup(g, h)
    ensures Results(g, inputs) == Results(h, inputs)
  {
    assert g.Find(g.entry) == h.Find(h.entry);
    LookupDecidesAdvance(g, h, g.entry, map[], MAX_AUTO_STEPS);
    if Start(g).Ok? {
      LookupDecidesResults(g, h, Start(g).stepId, map[], inputs);
    }
  }

  ghost predicate DanglingReported(r: EngineResult) {
    r.Err? && (r.error.UnknownStep? || r.error.EmptyGraph?)
  }

  lemma {:induction false} ClosedAdvance(g: Graph, id: StepId, answers: Answers, fuel: nat)
    requires Closed(g) && g.Find(id).Some?
    ensures !DanglingReported(AdvanceWithin(g, id, answers, fuel))
    ensures AdvanceWithin(g, id, answers, fuel).Ok? ==> g.Find(AdvanceWithin(g, id, answers, fuel).stepId).Some?
    decreases fuel
  {
    if fuel > 0 && BranchWalk.AtBranch(g, id) {
      var target := BranchTarget(g.Find(id).value.kind, answers);
      ClosedTargets(g, id, target);
      ClosedAdvance(g, target, answers, fuel - 1);
    }
  }

  lemma ClosedCall(g: Graph, id: StepId, answers: Answers, input: Input)
    requires Closed(g) && g.Find(id).Some?
    ensures var r := Call(g, id, answers, input).0; !DanglingReported(r) && (r.Ok? ==> g.Find(r.stepId).Some?)
  {
    forall s: StepId, a: Answers | g.Find(s).Some?
      ensures var r := Advance(g, s, a); !DanglingReported(r) && (r.Ok? ==> g.Find(r.stepId).Some?)
    {
      ClosedAdvance(g, s, a, MAX_AUTO_STEPS);
    }
    forall t | t in Targets(g.Find(id).value.kind) ensures g.Find(t).Some? {
      ClosedTargets(g, id, t);
    }
  }

  lemma {:induction false} ClosedResults(g: Graph, id: StepId, answers: Answers, inputs: seq<Input>)
    requires Closed(g) && g.Find(id).Some?
    ensures forall k :: 0 <= k < |ResultsFrom(g, id, answers, inputs)| ==> !DanglingReported(ResultsFrom(g, id, answers, inputs)[k])
    decreases |inputs|
  {
    if inputs != [] {
      ClosedCall(g, id, answers, inputs[0]);
      var (r, recorded) := Call(g, id, answers, inputs[0]);
      if r.Ok? {
        ClosedResults(g, r.stepId, recorded, inputs[1..]);
      } else {
        ClosedResults(g, id, answers, inputs[1..]);
      }
    }
  }

  /** No conversation over a closed graph, whatever is sent, ever reports an unknown step or an empty graph. */
  lemma ClosedSession(g: Graph, inputs: seq<Input>)
    requires Closed(g)
    ensures forall k :: 0 <= k < |Results(g, inputs)| ==> !DanglingReported(Results(g, inputs)[k])
  {
    FindIffHasId(g, g.entry);
    ClosedAdvance(g, g.entry, map[], MAX_AUTO_STEPS);
    if Start(g).Ok? {
      ClosedResults(g, Start(g).stepId, map[], inputs);
    }
  }
}
