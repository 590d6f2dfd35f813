/** The starter catalog's graph generator: questions, then one of five approval and ticket tails. */
module Seed {
  import opened Workflow
  import Engine
  import Text

  datatype Pattern = SimpleTicket | ManagerApprovalTicket | SecurityApprovalTicket | FinanceApprovalTicket | InfoOnly

  datatype SeedQuestion = SeedQuestion(fieldKey: string, caption: string, inputType: InputType, required: bool, options: seq<QuestionOption>)

  datatype Name = Name(id: StepId, caption: string)

  /** The steps a tail can be made of. */
  datatype Names = Names(manager: Name, second: Name, submit: Name, completed: Name, rejected: Name)

  /** The second approval's caption is its first words; the source appends a note to administrators. */
  function NamesFor(pattern: Pattern): Names {
    Names(
      Name("manager_approval", "Manager approval"),
      if pattern.SecurityApprovalTicket? then Name("security_approval", "Security approval")
      else Name("finance_approval", "Finance approval"),
      Name("submit", "Submit ticket"),
      Name("end_completed", "Request completed"),
      Name("end_rejected", "Request not approved"))
  }

  /** All that matters about the names: they differ from each other and from every `q<number>`. */
  ghost predicate Apart(n: Names) {
    && n.manager.id != n.second.id && n.manager.id != n.submit.id && n.manager.id != n.completed.id && n.manager.id != n.rejected.id
    && n.second.id != n.submit.id && n.second.id != n.completed.id && n.second.id != n.rejected.id
    && n.submit.id != n.completed.id && n.submit.id != n.rejected.id && n.completed.id != n.rejected.id
    && NotQuestionId(n.manager.id) && NotQuestionId(n.second.id) && NotQuestionId(n.submit.id)
    && NotQuestionId(n.completed.id) && NotQuestionId(n.rejected.id)
  }

  ghost predicate NotQuestionId(id: StepId) {
    id != [] && id[0] != 'q'
  }

  lemma NamesForApart(pattern: Pattern)
    ensures Apart(NamesFor(pattern))
  {
    var n := NamesFor(pattern);
    assert |n.submit.id| == 6 && |n.completed.id| == 13 && |n.rejected.id| == 12 && |n.manager.id| == 16;
    assert n.manager.id[0] == 'm' && n.submit.id[0] == 's' && n.completed.id[0] == 'e' && n.rejected.id[0] == 'e';
    if pattern.SecurityApprovalTicket? {
      assert |n.second.id| == 17 && n.second.id[0] == 's';
    } else {
      assert |n.second.id| == 16 && n.second.id[0] == 'f';
    }
  }

  function QuestionId(i: nat): StepId {
    "q" + Text.Decimal(i + 1)
  }

  function QuestionStep(questions: seq<SeedQuestion>, i: nat, nextAfter: StepId): Step
    requires i < |questions|
  {
    var q := questions[i];
    var next := if i + 1 < |questions| then QuestionId(i + 1) else nextAfter;
    Step(QuestionId(i), q.caption, Question(q.fieldKey, q.inputType, q.required, q.options, next))
  }

  function QuestionSteps(questions: seq<SeedQuestion>, nextAfter: StepId): seq<Step> {
    seq(|questions|, i requires 0 <= i < |questions| => QuestionStep(questions, i, nextAfter))
  }

  function EndStep(name: Name, outcome: EndOutcome): Step {
    Step(name.id, name.caption, End(outcome))
  }

  function ApprovalStep(name: Name, resolution: ApproverResolution, onApprove: StepId, onReject: StepId): Step {
    Step(name.id, name.caption, WaitForApproval(resolution, onApprove, onReject, None))
  }

  function SubmitAndEnds(n: Names, rejectable: bool): seq<Step> {
    [Step(n.submit.id, n.submit.caption, SubmitTicket(n.completed.id)), EndStep(n.completed, EndOutcome.Completed)]
    + if rejectable then [EndStep(n.rejected, EndOutcome.Rejected)] else []
  }

  function ManagerStep(n: Names, onApprove: StepId): Step {
    ApprovalStep(n.manager, ManagerOfRequester, onApprove, n.rejected.id)
  }

  function SecondStep(n: Names): Step {
    ApprovalStep(n.second, RoleInDepartment(Role.Approver), n.submit.id, n.rejected.id)
  }

  function Tail(pattern: Pattern, n: Names): seq<Step> {
    match pattern
    case SimpleTicket => SubmitAndEnds(n, false)
    case InfoOnly => [EndStep(n.completed, EndOutcome.Completed)]
    case ManagerApprovalTicket => [ManagerStep(n, n.submit.id)] + SubmitAndEnds(n, true)
    case _ => [ManagerStep(n, n.second.id), SecondStep(n)] + SubmitAndEnds(n, true)
  }

  function BuiltSteps(pattern: Pattern, n: Names, questions: seq<SeedQuestion>): seq<Step> {
    QuestionSteps(questions, Tail(pattern, n)[0].id) + Tail(pattern, n)
  }

  function BuiltWith(pattern: Pattern, n: Names, questions: seq<SeedQuestion>): Graph {
    Graph(BuiltSteps(pattern, n, questions)[0].id, BuiltSteps(pattern, n, questions))
  }

  function Built(pattern: Pattern, questions: seq<SeedQuestion>): Graph {
    BuiltWith(pattern, NamesFor(pattern), questions)
  }

  method CopyOptions(options: seq<QuestionOption>) returns (r: seq<QuestionOption>)
    ensures r == options
  {
    r := [];
    for k := 0 to |options|
      invariant r == options[..k]
    {
      r := r + [QuestionOption(options[k].value, options[k].caption)];
    }
  }

  /** The loop that pushes one step per question. */
  method AppendQuestions(steps: seq<Step>, questions: seq<SeedQuestion>, nextAfter: StepId) returns (r: seq<Step>)
    ensures r == steps + QuestionSteps(questions, nextAfter)
  {
    r := steps;
    for i := 0 to |questions|
      invariant r == steps + QuestionSteps(questions, nextAfter)[..i]
    {
      var q := questions[i];
      var next := if i + 1 < |questions| then QuestionId(i + 1) else nextAfter;
      var options := CopyOptions(q.options);
      var step := Step(QuestionId(i), q.caption, Question(q.fieldKey, q.inputType, q.required, options, next));
      r := r + [step];
      assert QuestionSteps(questions, nextAfter)[i] == step;
    }
  }

  method PushSubmitAndEnds(steps: seq<Step>, n: Names, rejectable: bool) returns (r: seq<Step>)
    ensures r == steps + SubmitAndEnds(n, rejectable)
  {
    r := steps + [Step(n.submit.id, n.submit.caption, SubmitTicket(n.completed.id))];
    r := r + [EndStep(n.completed, EndOutcome.Completed)];
    if rejectable {
      r := r + [EndStep(n.rejected, EndOutcome.Rejected)];
    }
  }

  method BuildWith(pattern: Pattern, n: Names, questions: seq<SeedQuestion>) returns (g: Graph)
    ensures g == BuiltWith(pattern, n, questions)
  {
    var steps := [];
    match pattern {
      case SimpleTicket =>
        steps := AppendQuestions(steps, questions, n.submit.id);
        steps := PushSubmitAndEnds(steps, n, false);
      case InfoOnly =>
        steps := AppendQuestions(steps, questions, n.completed.id);
        steps := steps + [EndStep(n.completed, EndOutcome.Completed)];
      case ManagerApprovalTicket =>
        steps := AppendQuestions(steps, questions, n.manager.id);
        steps := steps + [ManagerStep(n, n.submit.id)];
        steps := PushSubmitAndEnds(steps, n, true);
      case _ =>
        steps := AppendQuestions(steps, questions, n.manager.id);
        steps := steps + [ManagerStep(n, n.second.id)];
        steps := steps + [SecondStep(n)];
        steps := PushSubmitAndEnds(steps, n, true);
    }
    assert steps == BuiltSteps(pattern, n, questions);
    g := Graph(steps[0].id, steps);
  }

  method BuildGraph(pattern: Pattern, questions: seq<SeedQuestion>) returns (g: Graph)
    ensures g == Built(pattern, questions)
  {
    g := BuildWith(pattern, NamesFor(pattern), questions);
  }

  lemma QuestionIdInjective(i: nat, j: nat)
    requires QuestionId(i) == QuestionId(j)
    ensures i == j
  {
    assert QuestionId(i)[1..] == Text.Decimal(i + 1);
    assert QuestionId(j)[1..] == Text.Decimal(j + 1);
    Text.DecimalInjective(i + 1, j + 1);
  }

  lemma TailIds(pattern: Pattern, n: Names)
    requires Apart(n)
    ensures forall i :: 0 <= i < |Tail(pattern, n)| ==> NotQuestionId(Tail(pattern, n)[i].id)
    ensures forall i, j :: 0 <= i < j < |Tail(pattern, n)| ==> Tail(pattern, n)[i].id != Tail(pattern, n)[j].id
  {
  }

  lemma BuiltAt(pattern: Pattern, n: Names, questions: seq<SeedQuestion>, i: nat)
    requires i < |questions| + |Tail(pattern, n)|
    ensures |BuiltSteps(pattern, n, questions)| == |questions| + |Tail(pattern, n)|
    ensures BuiltSteps(pattern, n, questions)[i] ==
            if i < |questions| then QuestionStep(questions, i, Tail(pattern, n)[0].id) else Tail(pattern, n)[i - |questions|]
  {
  }

  lemma BuiltDistinct(pattern: Pattern, n: Names, questions: seq<SeedQuestion>)
    requires Apart(n)
    ensures BuiltWith(pattern, n, questions).DistinctIds()
  {
    var steps, q := BuiltSteps(pattern, n, questions), |questions|;
    TailIds(pattern, n);
    forall i, j | 0 <= i < j < |steps| ensures steps[i].id != steps[j].id {
      BuiltAt(pattern, n, questions, i);
      BuiltAt(pattern, n, questions, j);
      if j < q {
        if steps[i].id == steps[j].id {
          QuestionIdInjective(i, j);
        }
      } else if i < q {
        assert QuestionId(i)[0] == 'q';
        assert NotQuestionId(Tail(pattern, n)[j - q].id);
      }
    }
  }

  /** The offset within a tail of a step it refers to. */
  lemma TailEdges(pattern: Pattern, n: Names, i: nat, t: StepId) returns (j: nat)
    requires i < |Tail(pattern, n)| && t in Targets(Tail(pattern, n)[i].kind)
    ensures i < j < |Tail(pattern, n)| && Tail(pattern, n)[j].id == t
  {
    j :| i < j < |Tail(pattern, n)| && Tail(pattern, n)[j].id == t;
  }

  /** Every reference resolves to a strictly later step: position is a rank that every edge moves along. */
  lemma EdgesGoForward(pattern: Pattern, n: Names, questions: seq<SeedQuestion>, i: nat, t: StepId) returns (j: nat)
    requires i < |BuiltSteps(pattern, n, questions)| && t in Targets(BuiltSteps(pattern, n, questions)[i].kind)
    ensures i < j < |BuiltSteps(pattern, n, questions)| && BuiltSteps(pattern, n, questions)[j].id == t
  {
    BuiltAt(pattern, n, questions, i);
    if i < |questions| {
      j := i + 1;
    } else {
      var k := TailEdges(pattern, n, i - |questions|, t);
      j := |questions| + k;
    }
    BuiltAt(pattern, n, questions, j);
  }

  /** Whatever the pattern and however few the questions, the generated graph is closed. */
  lemma BuiltClosed(pattern: Pattern, n: Names, questions: seq<SeedQuestion>)
    ensures Closed(BuiltWith(pattern, n, questions))
  {
    var g := BuiltWith(pattern, n, questions);
    assert g.steps[0].id == g.entry;
    forall i, t | 0 <= i < |g.steps| && t in Targets(g.steps[i].kind) ensures g.HasId(t) {
      var j := EdgesGoForward(pattern, n, questions, i, t);
    }
  }

  lemma TailPredecessor(pattern: Pattern, n: Names, j: nat) returns (i: nat)
    requires 0 < j < |Tail(pattern, n)|
    ensures i < j && Tail(pattern, n)[j].id in Targets(Tail(pattern, n)[i].kind)
  {
    i := if Tail(pattern, n)[j] == EndStep(n.rejected, EndOutcome.Rejected) then 0 else j - 1;
  }

  lemma Predecessor(pattern: Pattern, n: Names, questions: seq<SeedQuestion>, j: nat) returns (i: nat)
    requires 0 < j < |BuiltSteps(pattern, n, questions)|
    ensures i < j && BuiltSteps(pattern, n, questions)[j].id in Targets(BuiltSteps(pattern, n, questions)[i].kind)
  {
    BuiltAt(pattern, n, questions, j);
    if j <= |questions| {
      i := j - 1;
    } else {
      var k := TailPredecessor(pattern, n, j - |questions|);
      i := |questions| + k;
    }
    BuiltAt(pattern, n, questions, i);
  }

  /** A walk along references from the entry, as positions. */
  ghost predicate Chain(g: Graph, path: seq<nat>) {
    && path != [] && path[0] == 0 && (forall k :: 0 <= k < |path| ==> path[k] < |g.steps|)
    && g.steps[0].id == g.entry
    && forall k :: 0 <= k < |path| - 1 ==> g.steps[path[k + 1]].id in Targets(g.steps[path[k]].kind)
  }

  lemma ChainExtends(g: Graph, path: seq<nat>, j: nat)
    requires Chain(g, path) && j < |g.steps| && g.steps[j].id in Targets(g.steps[path[|path| - 1]].kind)
    ensures Chain(g, path + [j])
  {
  }

  /** No generated step is unreachable. */
  lemma {:induction false} BuiltReachable(pattern: Pattern, n: Names, questions: seq<SeedQuestion>, j: nat) returns (path: seq<nat>)
    requires j < |BuiltSteps(pattern, n, questions)|
    ensures Chain(BuiltWith(pattern, n, questions), path) && path[|path| - 1] == j
    decreases j
  {
    if j == 0 {
      path := [0];
    } else {
      var i := Predecessor(pattern, n, questions, j);
      path := BuiltReachable(pattern, n, questions, i);
      ChainExtends(BuiltWith(pattern, n, questions), path, j);
      path := path + [j];
    }
  }

  /** No generated graph has a branch, so the engine stops at once wherever it is sent. */
  lemma BuiltAdvance(pattern: Pattern, n: Names, questions: seq<SeedQuestion>, i: nat, answers: Answers)
    requires Apart(n) && i < |BuiltSteps(pattern, n, questions)|
    ensures var g := BuiltWith(pattern, n, questions);
            && g.Find(g.steps[i].id) == Some(g.steps[i]) && !g.steps[i].kind.Branch?
            && Engine.Advance(g, g.steps[i].id, answers) == Engine.Ok(g.steps[i].id, Engine.OutcomeOf(g.steps[i].kind))
  {
    var g := BuiltWith(pattern, n, questions);
    BuiltDistinct(pattern, n, questions);
    FindAt(g, i);
    BuiltAt(pattern, n, questions, i);
  }
}
