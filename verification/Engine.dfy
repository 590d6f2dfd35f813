/** The pure interpreter: one call advances an instance to the next point that needs the outside world. */
module Engine {
  import opened Workflow

  const MAX_AUTO_STEPS: nat := 256

  datatype EngineError =
    | UnknownStep(stepId: StepId)
    | WrongStepKind(stepId: StepId, expected: string, found: string)
    | UnexpectedField(stepId: StepId, expectedKey: string, actualKey: string)
    | EmptyGraph
    | TooManySteps(bound: nat)

  datatype Outcome =
    | AwaitingAnswer(fieldKey: string)
    | AwaitingApproval(resolution: ApproverResolution, timeout: Option<int>)
    | ReadyToSubmitTicket
    | Finished(outcome: EndOutcome)

  datatype EngineResult = Ok(stepId: StepId, outcome: Outcome) | Err(error: EngineError)

  function KindName(kind: StepKind): string {
    match kind
    case Question(_, _, _, _, _) => "question"
    case Branch(_, _, _) => "branch"
    case WaitForApproval(_, _, _, _) => "wait_for_approval"
    case SubmitTicket(_) => "submit_ticket"
    case End(_) => "end"
  }

  predicate EvalCondition(c: Condition, answers: Answers) {
    match c
    case Equals(key, value) => key in answers && answers[key] == value
    case NotEquals(key, value) => !(key in answers && answers[key] == value)
    case Exists(key) => key in answers
    case In(key, values) => key in answers && answers[key] in values
    case And(cs) => forall d | d in cs :: EvalCondition(d, answers)
    case Or(cs) => exists d | d in cs :: EvalCondition(d, answers)
    case Not(d) => !EvalCondition(d, answers)
  }

  /** What a condition says about the recorded pairs of key and value. */
  ghost predicate Holds(c: Condition, answers: Answers) {
    match c
    case Equals(key, value) => (key, value) in answers.Items
    case NotEquals(key, value) => (key, value) !in answers.Items
    case Exists(key) => key in answers.Keys
    case In(key, values) => exists i :: 0 <= i < |values| && (key, values[i]) in answers.Items
    case And(cs) => forall i :: 0 <= i < |cs| ==> Holds(cs[i], answers)
    case Or(cs) => exists i :: 0 <= i < |cs| && Holds(cs[i], answers)
    case Not(d) => !Holds(d, answers)
  }

  /** The evaluation of a condition, its lists walked until the first element that settles them. */
  method Evaluate(c: Condition, answers: Answers) returns (b: bool)
    ensures b == Holds(c, answers)
    decreases c
  {
    match c {
      case Equals(key, value) =>
        b := key in answers && answers[key] == value;
      case NotEquals(key, value) =>
        b := !(key in answers && answers[key] == value);
      case Exists(key) =>
        b := key in answers;
      case In(key, values) =>
        b := key in answers && answers[key] in values;
        if b {
          ghost var i :| 0 <= i < |values| && values[i] == answers[key];
          assert (key, values[i]) in answers.Items;
        }
      case And(cs) =>
        for i := 0 to |cs|
          invariant forall k :: 0 <= k < i ==> Holds(cs[k], answers)
        {
          var holds := Evaluate(cs[i], answers);
          if !holds {
            return false;
          }
        }
        b := true;
      case Or(cs) =>
        for i := 0 to |cs|
          invariant forall k :: 0 <= k < i ==> !Holds(cs[k], answers)
        {
          var holds := Evaluate(cs[i], answers);
          if holds {
            return true;
          }
        }
        b := false;
      case Not(d) =>
        var holds := Evaluate(d, answers);
        b := !holds;
    }
  }

  lemma {:induction false} EvalIffHolds(c: Condition, answers: Answers)
    ensures EvalCondition(c, answers) <==> Holds(c, answers)
  {
    match c
    case And(cs) =>
      forall i | 0 <= i < |cs| ensures EvalCondition(cs[i], answers) <==> Holds(cs[i], answers) {
        EvalIffHolds(cs[i], answers);
      }
    case Or(cs) =>
      forall i | 0 <= i < |cs| ensures EvalCondition(cs[i], answers) <==> Holds(cs[i], answers) {
        EvalIffHolds(cs[i], answers);
      }
    case Not(d) => EvalIffHolds(d, answers);
    case In(key, values) =>
      if EvalCondition(c, answers) {
        var i :| 0 <= i < |values| && values[i] == answers[key];
        assert (key, values[i]) in answers.Items;
      }
    case _ =>
  }

  function BranchTarget(kind: StepKind, answers: Answers): StepId
    requires kind.Branch?
  {
    if EvalCondition(kind.condition, answers) then kind.onTrue else kind.onFalse
  }

  /** What a non-branch step asks of the caller. */
  function OutcomeOf(kind: StepKind): Outcome
    requires !kind.Branch?
  {
    match kind
    case Question(key, _, _, _, _) => AwaitingAnswer(key)
    case WaitForApproval(res, _, _, timeout) => AwaitingApproval(res, timeout)
    case SubmitTicket(_) => ReadyToSubmitTicket
    case End(outcome) => Finished(outcome)
  }

  /** The walk with `fuel` loop iterations left. */
  function AdvanceWithin(g: Graph, id: StepId, answers: Answers, fuel: nat): EngineResult
    decreases fuel
  {
    if fuel == 0 then Err(TooManySteps(MAX_AUTO_STEPS))
    else
      match g.Find(id)
      case None => Err(UnknownStep(id))
      case Some(step) =>
        if step.kind.Branch?
        then AdvanceWithin(g, BranchTarget(step.kind, answers), answers, fuel - 1)
        else Ok(id, OutcomeOf(step.kind))
  }

  function Advance(g: Graph, id: StepId, answers: Answers): EngineResult {
    AdvanceWithin(g, id, answers, MAX_AUTO_STEPS)
  }

  /** The source's bounded loop. */
  method AutoAdvance(g: Graph, id: StepId, answers: Answers) returns (r: EngineResult)
    ensures r == Advance(g, id, answers)
  {
    var stepId := id;
    for i := 0 to MAX_AUTO_STEPS
      invariant AdvanceWithin(g, stepId, answers, MAX_AUTO_STEPS - i) == Advance(g, id, answers)
    {
      var found := g.Find(stepId);
      if found.None? {
        return Err(UnknownStep(stepId));
      }
      match found.value.kind {
        case Question(key, _, _, _, _) =>
          return Ok(stepId, AwaitingAnswer(key));
        case Branch(condition, onTrue, onFalse) =>
          var holds := Evaluate(condition, answers);
          EvalIffHolds(condition, answers);
          stepId := if holds then onTrue else onFalse;
        case WaitForApproval(res, _, _, timeout) =>
          return Ok(stepId, AwaitingApproval(res, timeout));
        case SubmitTicket(_) =>
          return Ok(stepId, ReadyToSubmitTicket);
        case End(outcome) =>
          return Ok(stepId, Finished(outcome));
      }
    }
    r := Err(TooManySteps(MAX_AUTO_STEPS));
  }

  function Start(g: Graph): EngineResult {
    if g.Find(g.entry).None? then Err(EmptyGraph) else Advance(g, g.entry, map[])
  }

  /** The caller's answers are updated in place before the walk, so they change even when the walk then fails. */
  function SubmitAnswer(g: Graph, current: StepId, answers: Answers, key: string, value: Json): (EngineResult, Answers) {
    match g.Find(current)
    case None => (Err(UnknownStep(current)), answers)
    case Some(step) =>
      if !step.kind.Question? then
        (Err(WrongStepKind(current, "question", KindName(step.kind))), answers)
      else if key != step.kind.fieldKey then
        (Err(UnexpectedField(current, step.kind.fieldKey, key)), answers)
      else
        var recorded := answers[key := value];
        (Advance(g, step.kind.next, recorded), recorded)
  }

  function ResumeAfterApproval(g: Graph, current: StepId, answers: Answers, decision: ApprovalDecision): EngineResult {
    match g.Find(current)
    case None => Err(UnknownStep(current))
    case Some(step) =>
      if !step.kind.WaitForApproval? then
        Err(WrongStepKind(current, "wait_for_approval", KindName(step.kind)))
      else
        Advance(g, if decision.Approve? then step.kind.onApprove else step.kind.onReject, answers)
  }

  function ResumeAfterTicketDispatch(g: Graph, current: StepId, answers: Answers): EngineResult {
    match g.Find(current)
    case None => Err(UnknownStep(current))
    case Some(step) =>
      if !step.kind.SubmitTicket? then
        Err(WrongStepKind(current, "submit_ticket", KindName(step.kind)))
      else
        Advance(g, step.kind.next, answers)
  }
}

/** `AutoAdvance` against the walk an engine without any bound would make. */
module BranchWalk {
  import opened Workflow
  import opened Engine
  import Orbit

  predicate AtBranch(g: Graph, id: StepId) {
    g.Find(id).Some? && g.Find(id).value.kind.Branch?
  }

  /** Where `n` branch hops from `id` lead; `None` when the walk stops before making them all. */
  function Walk(g: Graph, id: StepId, answers: Answers, n: nat): Option<StepId>
    decreases n
  {
    if n == 0 then Some(id)
    else if AtBranch(g, id) then Walk(g, BranchTarget(g.Find(id).value.kind, answers), answers, n - 1)
    else None
  }

  /** One hop goes where the meaning of the condition says. */
  lemma BranchGoesByMeaning(g: Graph, id: StepId, answers: Answers, step: Step)
    requires g.Find(id) == Some(step) && step.kind.Branch?
    ensures Holds(step.kind.condition, answers) ==> Walk(g, id, answers, 1) == Some(step.kind.onTrue)
    ensures !Holds(step.kind.condition, answers) ==> Walk(g, id, answers, 1) == Some(step.kind.onFalse)
  {
    EvalIffHolds(step.kind.condition, answers);
    assert Walk(g, BranchTarget(step.kind, answers), answers, 0) == Some(BranchTarget(step.kind, answers));
  }

  ghost predicate CyclesForever(g: Graph, id: StepId, answers: Answers) {
    forall n: nat :: Walk(g, id, answers, n).Some?
  }

  function BranchIds(g: Graph): set<StepId> {
    set s | s in g.steps && s.kind.Branch? :: s.id
  }

  /** The walk stops at the non-branch step `s` after `n` hops. */
  ghost predicate StopsAt(g: Graph, id: StepId, answers: Answers, n: nat, s: StepId) {
    Walk(g, id, answers, n) == Some(s) && g.Find(s).Some? && !g.Find(s).value.kind.Branch?
  }

  /** The walk runs into the unresolved reference `s` after `n` hops. */
  ghost predicate LostAt(g: Graph, id: StepId, answers: Answers, n: nat, s: StepId) {
    Walk(g, id, answers, n) == Some(s) && g.Find(s).None?
  }

  lemma {:induction false} WalkCompose(g: Graph, id: StepId, answers: Answers, m: nat, n: nat)
    ensures Walk(g, id, answers, m + n) ==
            (match Walk(g, id, answers, m) case None => None case Some(mid) => Walk(g, mid, answers, n))
    decreases m
  {
    if m > 0 && AtBranch(g, id) {
      WalkCompose(g, BranchTarget(g.Find(id).value.kind, answers), answers, m - 1, n);
    }
  }

  /** Every answer the bounded loop gives, read off the walk. */
  lemma {:induction false} AdvanceWithinReads(g: Graph, id: StepId, answers: Answers, fuel: nat)
    ensures var r := AdvanceWithin(g, id, answers, fuel);
            || (r.Ok? && exists n: nat :: n < fuel && StopsAt(g, id, answers, n, r.stepId)
                                          && r.outcome == OutcomeOf(g.Find(r.stepId).value.kind))
            || (r.Err? && r.error.UnknownStep? && exists n: nat :: n < fuel && LostAt(g, id, answers, n, r.error.stepId))
            || (Walk(g, id, answers, fuel).Some? && r == Err(TooManySteps(MAX_AUTO_STEPS)))
    decreases fuel
  {
    if fuel > 0 {
      if AtBranch(g, id) {
        var target := BranchTarget(g.Find(id).value.kind, answers);
        AdvanceWithinReads(g, target, answers, fuel - 1);
        var r := AdvanceWithin(g, target, answers, fuel - 1);
        assert forall n: nat :: Walk(g, id, answers, n + 1) == Walk(g, target, answers, n);
        if r.Ok? {
          var n: nat :| n < fuel - 1 && StopsAt(g, target, answers, n, r.stepId);
          assert StopsAt(g, id, answers, n + 1, r.stepId);
        } else if r.error.UnknownStep? {
          var n: nat :| n < fuel - 1 && LostAt(g, target, answers, n, r.error.stepId);
          assert LostAt(g, id, answers, n + 1, r.error.stepId);
        }
      } else if g.Find(id).Some? {
        assert StopsAt(g, id, answers, 0, id);
      } else {
        assert LostAt(g, id, answers, 0, id);
      }
    }
  }

  /** A stopped walk has no later hop, so at most one hop count can end it. */
  lemma WalkEndsOnce(g: Graph, id: StepId, answers: Answers, m: nat, n: nat, s: StepId)
    requires m < n && Walk(g, id, answers, m) == Some(s) && !AtBranch(g, s)
    ensures Walk(g, id, answers, n).None?
  {
    WalkCompose(g, id, answers, m, n - m);
  }

  /** Success, exactly: a non-branch step lies within 255 hops, and it is that step's outcome that comes back. */
  lemma AdvanceSucceedsIff(g: Graph, id: StepId, answers: Answers, s: StepId, o: Outcome)
    ensures Advance(g, id, answers) == Ok(s, o) <==>
            exists n: nat :: n <= 255 && StopsAt(g, id, answers, n, s) && o == OutcomeOf(g.Find(s).value.kind)
  {
    AdvanceWithinReads(g, id, answers, MAX_AUTO_STEPS);
    if n: nat :| n <= 255 && StopsAt(g, id, answers, n, s) && o == OutcomeOf(g.Find(s).value.kind) {
      StopExcludesOthers(g, id, answers, n, s);
    }
  }

  /** Once a walk is known to stop within the bound, the call returns that stop. */
  lemma StopExcludesOthers(g: Graph, id: StepId, answers: Answers, n: nat, s: StepId)
    requires n <= 255 && StopsAt(g, id, answers, n, s)
    ensures Advance(g, id, answers) == Ok(s, OutcomeOf(g.Find(s).value.kind))
  {
    AdvanceWithinReads(g, id, answers, MAX_AUTO_STEPS);
    forall m: nat, t: StepId | Walk(g, id, answers, m) == Some(t) && !AtBranch(g, t)
      ensures m == n && t == s
    {
      if m < n {
        WalkEndsOnce(g, id, answers, m, n, t);
      } else if n < m {
        WalkEndsOnce(g, id, answers, n, m, s);
      }
    }
    WalkEndsOnce(g, id, answers, n, MAX_AUTO_STEPS, s);
  }

  /** An unresolved reference is reported exactly when the walk meets one within 255 hops. */
  lemma AdvanceUnknownIff(g: Graph, id: StepId, answers: Answers, s: StepId)
    ensures Advance(g, id, answers) == Err(UnknownStep(s)) <==>
            exists n: nat :: n <= 255 && LostAt(g, id, answers, n, s)
  {
    AdvanceWithinReads(g, id, answers, MAX_AUTO_STEPS);
    if n: nat :| n <= 255 && LostAt(g, id, answers, n, s) {
      forall m: nat, t: StepId | Walk(g, id, answers, m) == Some(t) && !AtBranch(g, t)
        ensures m == n && t == s
      {
        if m < n {
          WalkEndsOnce(g, id, answers, m, n, t);
        } else if n < m {
          WalkEndsOnce(g, id, answers, n, m, s);
        }
      }
      WalkEndsOnce(g, id, answers, n, MAX_AUTO_STEPS, s);
    }
  }

  /** The bound is hit exactly when 256 branch hops are possible. */
  lemma AdvanceTooManyIff(g: Graph, id: StepId, answers: Answers)
    ensures Advance(g, id, answers) == Err(TooManySteps(MAX_AUTO_STEPS)) <==>
            Walk(g, id, answers, MAX_AUTO_STEPS).Some?
  {
    AdvanceWithinReads(g, id, answers, MAX_AUTO_STEPS);
    var r := Advance(g, id, answers);
    if Walk(g, id, answers, MAX_AUTO_STEPS).Some? {
      forall m: nat, t: StepId | m < MAX_AUTO_STEPS && Walk(g, id, answers, m) == Some(t)
        ensures AtBranch(g, t)
      {
        if !AtBranch(g, t) {
          WalkEndsOnce(g, id, answers, m, MAX_AUTO_STEPS, t);
        }
      }
    }
  }

  /** All hops but the last of a walk leave from branch steps. */
  lemma WalkLeavesBranches(g: Graph, id: StepId, answers: Answers, n: nat, k: nat)
    requires Walk(g, id, answers, n).Some? && k < n
    ensures Walk(g, id, answers, k).Some? && Walk(g, id, answers, k).value in BranchIds(g)
  {
    WalkCompose(g, id, answers, k, n - k);
    var s := Walk(g, id, answers, k).value;
    assert AtBranch(g, s);
    FindIffHasId(g, s);
  }

  /** The walk as a function of the number of hops. */
  ghost function Hops(g: Graph, id: StepId, answers: Answers): nat -> Option<StepId> {
    (n: nat) => Walk(g, id, answers, n)
  }

  lemma HopsAreWalk(g: Graph, id: StepId, answers: Answers)
    ensures Orbit.IsWalk(Hops(g, id, answers))
  {
    var s := Hops(g, id, answers);
    forall n: nat ensures Orbit.StaysStopped(s, n) {
      WalkCompose(g, id, answers, n, 1);
    }
    forall j: nat, k: nat ensures Orbit.InStep(s, j, k) {
      WalkCompose(g, id, answers, j, 1);
      WalkCompose(g, id, answers, k, 1);
    }
  }

  /** Pigeonhole: more hops than there are branch ids means an infinite walk. */
  lemma LongWalkCycles(g: Graph, id: StepId, answers: Answers, n: nat)
    requires Walk(g, id, answers, n).Some? && n > |BranchIds(g)|
    ensures CyclesForever(g, id, answers)
  {
    var s := Hops(g, id, answers);
    forall k: nat | k < n ensures s(k).Some? && s(k).value in BranchIds(g) {
      WalkLeavesBranches(g, id, answers, n, k);
    }
    HopsAreWalk(g, id, answers);
    Orbit.LongIsForever(s, n, BranchIds(g));
    forall m: nat ensures Walk(g, id, answers, m).Some? {
      assert s(m).Some?;
    }
  }

  /** With at most 255 branch steps the bound has no false alarm: it is hit exactly on endless branch cycles. */
  lemma BoundDetectsExactlyCycles(g: Graph, id: StepId, answers: Answers)
    requires |BranchIds(g)| <= 255
    ensures Advance(g, id, answers) == Err(TooManySteps(MAX_AUTO_STEPS)) <==> CyclesForever(g, id, answers)
  {
    AdvanceTooManyIff(g, id, answers);
    if Walk(g, id, answers, MAX_AUTO_STEPS).Some? {
      LongWalkCycles(g, id, answers, MAX_AUTO_STEPS);
    }
  }

  /** A straight line of `n` branches ending the request, `"a"` repeated giving each its own id. */
  function ChainId(k: nat): StepId {
    if k == 0 then "a" else ChainId(k - 1) + "a"
  }

  function Chain(n: nat): seq<Step> {
    if n == 0 then [Step(ChainId(0), "", End(Completed))]
    else Chain(n - 1) + [Step(ChainId(n), "", Branch(Exists(""), ChainId(n - 1), ChainId(n - 1)))]
  }

  lemma {:induction false} ChainIdLength(k: nat)
    ensures |ChainId(k)| == k + 1
  {
    if k > 0 {
      ChainIdLength(k - 1);
    }
  }

  lemma {:induction false} FindInChain(n: nat, k: nat)
    requires k <= n
    ensures FindStep(Chain(n), ChainId(k)) ==
            Some(if k == 0 then Step(ChainId(0), "", End(Completed))
                 else Step(ChainId(k), "", Branch(Exists(""), ChainId(k - 1), ChainId(k - 1))))
    ensures forall id: StepId :: |id| > n + 1 ==> FindStep(Chain(n), id).None?
  {
    ChainIdLength(k);
    ChainIdLength(n);
    if n > 0 {
      FindInChain(n - 1, if k < n then k else 0);
      FindInAppend(Chain(n - 1), Chain(n)[|Chain(n - 1)|], ChainId(k));
      forall id: StepId | |id| > n + 1 ensures FindStep(Chain(n), id).None? {
        FindInAppend(Chain(n - 1), Chain(n)[|Chain(n - 1)|], id);
      }
    }
  }

  lemma {:induction false} FindInAppend(steps: seq<Step>, s: Step, id: StepId)
    ensures FindStep(steps + [s], id) ==
            if FindStep(steps, id).Some? then FindStep(steps, id) else if s.id == id then Some(s) else None
  {
    if steps != [] {
      assert (steps + [s])[1..] == steps[1..] + [s];
      FindInAppend(steps[1..], s, id);
    } else {
      assert [s][1..] == [];
    }
  }

  lemma {:induction false} ChainWalk(n: nat, k: nat, answers: Answers)
    requires k <= n
    ensures Walk(Graph("", Chain(n)), ChainId(k), answers, k) == Some(ChainId(0))
  {
    FindInChain(n, k);
    if k > 0 {
      ChainWalk(n, k - 1, answers);
    }
  }

  /** The limit of 255 is sharp: an acyclic graph of 256 branches is reported as if it cycled. */
  lemma BoundMisjudgesLongChain(answers: Answers)
    ensures var g := Graph("", Chain(256));
            && !CyclesForever(g, ChainId(256), answers)
            && Advance(g, ChainId(256), answers) == Err(TooManySteps(MAX_AUTO_STEPS))
  {
    var g := Graph("", Chain(256));
    ChainWalk(256, 256, answers);
    AdvanceTooManyIff(g, ChainId(256), answers);
    FindInChain(256, 0);
    WalkEndsOnce(g, ChainId(256), answers, 256, 257, ChainId(0));
  }

  /** The answer keys a condition reads, at any depth. */
  function Keys(c: Condition): set<string> {
    match c
    case Equals(key, _) => {key}
    case NotEquals(key, _) => {key}
    case Exists(key) => {key}
    case In(key, _) => {key}
    case And(cs) => set d, k | d in cs && k in Keys(d) :: k
    case Or(cs) => set d, k | d in cs && k in Keys(d) :: k
    case Not(d) => Keys(d)
  }

  ghost predicate AgreeOn(keys: set<string>, a: Answers, b: Answers) {
    forall k :: k in keys ==> (k in a <==> k in b) && (k in a ==> a[k] == b[k])
  }

  function RoutingKeys(g: Graph): set<string> {
    set s, k | s in g.steps && s.kind.Branch? && k in Keys(s.kind.condition) :: k
  }

  lemma {:induction false} ConditionFrame(c: Condition, a: Answers, b: Answers)
    requires AgreeOn(Keys(c), a, b)
    ensures EvalCondition(c, a) == EvalCondition(c, b)
  {
    match c
    case And(cs) =>
      forall d | d in cs ensures EvalCondition(d, a) == EvalCondition(d, b) {
        ConditionFrame(d, a, b);
      }
    case Or(cs) =>
      forall d | d in cs ensures EvalCondition(d, a) == EvalCondition(d, b) {
        ConditionFrame(d, a, b);
      }
    case Not(d) => ConditionFrame(d, a, b);
    case Equals(key, _) => assert key in Keys(c);
    case NotEquals(key, _) => assert key in Keys(c);
    case Exists(key) => assert key in Keys(c);
    case In(key, _) => assert key in Keys(c);
  }

  lemma {:induction false} RoutingFrameWithin(g: Graph, id: StepId, a: Answers, b: Answers, fuel: nat)
    requires AgreeOn(RoutingKeys(g), a, b)
    ensures AdvanceWithin(g, id, a, fuel) == AdvanceWithin(g, id, b, fuel)
    decreases fuel
  {
    if fuel > 0 && AtBranch(g, id) {
      FindIffHasId(g, id);
      var step := g.Find(id).value;
      assert forall k :: k in Keys(step.kind.condition) ==> k in RoutingKeys(g);
      ConditionFrame(step.kind.condition, a, b);
      RoutingFrameWithin(g, BranchTarget(step.kind, a), a, b, fuel - 1);
    }
  }

  /** Routing reads nothing but the keys its conditions mention. */
  lemma RoutingFrame(g: Graph, id: StepId, a: Answers, b: Answers)
    requires AgreeOn(RoutingKeys(g), a, b)
    ensures Advance(g, id, a) == Advance(g, id, b)
  {
    RoutingFrameWithin(g, id, a, b, MAX_AUTO_STEPS);
  }

  /** So an answer to a key no condition mentions never changes the route. */
  lemma UnmentionedAnswerKeepsRoute(g: Graph, id: StepId, a: Answers, key: string, value: Json)
    requires key !in RoutingKeys(g)
    ensures Advance(g, id, a[key := value]) == Advance(g, id, a)
  {
    RoutingFrame(g, id, a[key := value], a);
  }

  /** An accepted walk starts and ends inside the graph and ends away from branches, with that step's own outcome. */
  lemma AdvanceLands(g: Graph, id: StepId, answers: Answers)
    ensures var r := Advance(g, id, answers);
            r.Ok? ==> g.Find(r.stepId).Some? && !g.Find(r.stepId).value.kind.Branch?
                      && r.outcome == OutcomeOf(g.Find(r.stepId).value.kind)
  {
    AdvanceWithinReads(g, id, answers, MAX_AUTO_STEPS);
  }

  /** The name a refusal gives to a step's kind. */
  ghost predicate Named(kind: StepKind, name: string) {
    || (kind.Question? && name == "question") || (kind.Branch? && name == "branch")
    || (kind.WaitForApproval? && name == "wait_for_approval") || (kind.SubmitTicket? && name == "submit_ticket")
    || (kind.End? && name == "end")
  }

  /** What the engine asks for at the step it stops at, field by field. */
  lemma AdvanceAsksFor(g: Graph, id: StepId, answers: Answers)
    requires Advance(g, id, answers).Ok?
    ensures var r := Advance(g, id, answers);
            g.Find(r.stepId).Some?
            && match g.Find(r.stepId).value.kind
               case Question(key, _, _, _, _) => r.outcome == AwaitingAnswer(key)
               case WaitForApproval(resolution, _, _, timeout) => r.outcome == AwaitingApproval(resolution, timeout)
               case SubmitTicket(_) => r.outcome == ReadyToSubmitTicket
               case End(end) => r.outcome == Finished(end)
               case Branch(_, _, _) => false
  {
    AdvanceLands(g, id, answers);
  }

  /** A start is refused as empty exactly when the entry is missing, and otherwise is the walk from it without answers. */
  lemma StartResult(g: Graph)
    ensures Start(g) == Err(EmptyGraph) <==> !g.HasId(g.entry)
    ensures g.HasId(g.entry) ==> Start(g) == Advance(g, g.entry, map[])
  {
    FindIffHasId(g, g.entry);
    AdvanceWithinReads(g, g.entry, map[], MAX_AUTO_STEPS);
  }

  /** Every way an answer is taken or refused, and what is recorded in each. */
  lemma AnswerResult(g: Graph, id: StepId, answers: Answers, key: string, value: Json)
    ensures var (r, recorded) := SubmitAnswer(g, id, answers, key, value);
            match g.Find(id)
            case None => r == Err(UnknownStep(id)) && recorded == answers
            case Some(step) =>
              if step.kind.Question? then
                if step.kind.fieldKey == key
                then recorded == answers[key := value] && r == Advance(g, step.kind.next, recorded)
                else r == Err(UnexpectedField(id, step.kind.fieldKey, key)) && recorded == answers
              else
                WrongKind(r, id, "question", step.kind) && recorded == answers
  {
  }

  /** Every way a decision and a dispatched ticket are taken or refused. */
  lemma ResumeResult(g: Graph, id: StepId, answers: Answers)
    ensures var approved, rejected := ResumeAfterApproval(g, id, answers, Approve), ResumeAfterApproval(g, id, answers, Reject);
            var sent := ResumeAfterTicketDispatch(g, id, answers);
            match g.Find(id)
            case None => approved == rejected == sent == Err(UnknownStep(id))
            case Some(step) =>
              && (if step.kind.WaitForApproval?
                  then approved == Advance(g, step.kind.onApprove, answers) && rejected == Advance(g, step.kind.onReject, answers)
                  else approved == rejected && WrongKind(approved, id, "wait_for_approval", step.kind))
              && (if step.kind.SubmitTicket?
                  then sent == Advance(g, step.kind.next, answers)
                  else WrongKind(sent, id, "submit_ticket", step.kind))
  {
  }

  ghost predicate WrongKind(r: EngineResult, id: StepId, expected: string, kind: StepKind) {
    r.Err? && r.error.WrongStepKind? && r.error.stepId == id && r.error.expected == expected && Named(kind, r.error.found)
  }
}
