/** What a generated graph says, word for word, in each of its conversations. */
module SeedScripts {
  import opened Workflow
  import opened Engine
  import opened Sessions
  import opened Conversations
  import Text
  import opened Seed
  import opened SeedRuns

  /** All questions answered, in order. */
  function Answered(questions: seq<SeedQuestion>, values: seq<Json>): seq<Input>
    requires |values| == |questions|
  {
    seq(|questions|, k requires 0 <= k < |questions| => Answer(questions[k].fieldKey, values[k]))
  }

  /** An input that suits a step leads to the step it names. */
  lemma Hop(pattern: Pattern, n: Names, questions: seq<SeedQuestion>, i: nat, j: nat, answers: Answers, x: Input)
    requires Apart(n) && i < |BuiltSteps(pattern, n, questions)| && j < |BuiltSteps(pattern, n, questions)|
    requires var steps := BuiltSteps(pattern, n, questions);
             Suits(steps[i].kind, x) && Destination(steps[i].kind, x) == steps[j].id
    ensures var g := BuiltWith(pattern, n, questions);
            && !g.steps[j].kind.Branch?
            && Call(g, g.steps[i].id, answers, x).0 == Ok(g.steps[j].id, OutcomeOf(g.steps[j].kind))
  {
    var g := BuiltWith(pattern, n, questions);
    var k := BuiltCall(pattern, n, questions, i, answers, x);
    BuiltDistinct(pattern, n, questions);
    SameIdSameStep(g, j, k);
  }

  lemma SameIdSameStep(g: Graph, j: nat, k: nat)
    requires g.DistinctIds() && j < |g.steps| && k < |g.steps| && g.steps[j].id == g.steps[k].id
    ensures j == k
  {
  }

  /** The conversation stands at position `j`, having just said so. */
  ghost predicate StandsAt(pattern: Pattern, n: Names, questions: seq<SeedQuestion>, inputs: seq<Input>, p: Position, j: nat) {
    var g := BuiltWith(pattern, n, questions);
    && j < |g.steps| && !g.steps[j].kind.Branch? && p.stepId == g.steps[j].id
    && Arrives(g, inputs, p) && Says(g, inputs, Ok(g.steps[j].id, OutcomeOf(g.steps[j].kind)))
  }

  lemma StandNext(pattern: Pattern, n: Names, questions: seq<SeedQuestion>, inputs: seq<Input>, p: Position, i: nat, x: Input, j: nat)
    returns (q: Position)
    requires Apart(n) && StandsAt(pattern, n, questions, inputs, p, i) && j < |BuiltSteps(pattern, n, questions)|
    requires var steps := BuiltSteps(pattern, n, questions);
             Suits(steps[i].kind, x) && Destination(steps[i].kind, x) == steps[j].id
    ensures StandsAt(pattern, n, questions, inputs + [x], q, j)
  {
    var g := BuiltWith(pattern, n, questions);
    Hop(pattern, n, questions, i, j, p.answers, x);
    SaysNext(g, inputs, p, x);
    q := Moved(g, p, x).value;
  }

  lemma StandFirst(pattern: Pattern, n: Names, questions: seq<SeedQuestion>) returns (p: Position)
    requires Apart(n)
    ensures StandsAt(pattern, n, questions, [], p, 0)
  {
    var g := BuiltWith(pattern, n, questions);
    BuiltAdvance(pattern, n, questions, 0, map[]);
    p := StartAt(g);
    assert Results(g, []) == [Start(g)];
    assert Arrives(g, [], p);
  }

  lemma {:induction false} StandAfterAnswers(pattern: Pattern, n: Names, questions: seq<SeedQuestion>, values: seq<Json>, k: nat)
    returns (p: Position)
    requires Apart(n) && |values| == |questions| && k <= |questions|
    ensures StandsAt(pattern, n, questions, Answered(questions, values)[..k], p, k)
    decreases k
  {
    if k == 0 {
      p := StandFirst(pattern, n, questions);
    } else {
      var before := StandAfterAnswers(pattern, n, questions, values, k - 1);
      p := StandAfterAnswer(pattern, n, questions, Answered(questions, values)[..k - 1], before, k - 1, values[k - 1]);
      AnsweredPrefix(questions, values, k);
    }
  }

  lemma AnsweredPrefix(questions: seq<SeedQuestion>, values: seq<Json>, k: nat)
    requires |values| == |questions| && 0 < k <= |questions|
    ensures Answered(questions, values)[..k]
         == Answered(questions, values)[..k - 1] + [Answer(questions[k - 1].fieldKey, values[k - 1])]
  {
  }

  lemma StandAfterAnswer(pattern: Pattern, n: Names, questions: seq<SeedQuestion>, inputs: seq<Input>, p: Position, i: nat, value: Json)
    returns (q: Position)
    requires Apart(n) && i < |questions| && StandsAt(pattern, n, questions, inputs, p, i)
    ensures StandsAt(pattern, n, questions, inputs + [Answer(questions[i].fieldKey, value)], q, i + 1)
  {
    var x := Answer(questions[i].fieldKey, value);
    AnswerLeadsOn(pattern, n, questions, i, x);
    q := StandNext(pattern, n, questions, inputs, p, i, x, i + 1);
  }

  lemma AnswerLeadsOn(pattern: Pattern, n: Names, questions: seq<SeedQuestion>, i: nat, x: Input)
    requires i < |questions| && x.Answer? && x.key == questions[i].fieldKey
    ensures var steps := BuiltSteps(pattern, n, questions);
            i + 1 < |steps| && Suits(steps[i].kind, x) && Destination(steps[i].kind, x) == steps[i + 1].id
  {
    BuiltAt(pattern, n, questions, i);
    BuiltAt(pattern, n, questions, i + 1);
  }

  lemma StandInTail(pattern: Pattern, n: Names, questions: seq<SeedQuestion>, inputs: seq<Input>, p: Position, i: nat, x: Input, j: nat)
    returns (q: Position)
    requires Apart(n) && i < |Tail(pattern, n)| && j < |Tail(pattern, n)|
    requires StandsAt(pattern, n, questions, inputs, p, |questions| + i)
    requires Suits(Tail(pattern, n)[i].kind, x) && Destination(Tail(pattern, n)[i].kind, x) == Tail(pattern, n)[j].id
    ensures StandsAt(pattern, n, questions, inputs + [x], q, |questions| + j)
    ensures !Tail(pattern, n)[j].kind.Branch?
    ensures Says(BuiltWith(pattern, n, questions), inputs + [x], Ok(Tail(pattern, n)[j].id, OutcomeOf(Tail(pattern, n)[j].kind)))
  {
    q := MoveInTail(pattern, n, questions, inputs, p, i, x, j);
    BuiltAt(pattern, n, questions, |questions| + j);
  }

  lemma MoveInTail(pattern: Pattern, n: Names, questions: seq<SeedQuestion>, inputs: seq<Input>, p: Position, i: nat, x: Input, j: nat)
    returns (q: Position)
    requires Apart(n) && i < |Tail(pattern, n)| && j < |Tail(pattern, n)|
    requires StandsAt(pattern, n, questions, inputs, p, |questions| + i)
    requires Suits(Tail(pattern, n)[i].kind, x) && Destination(Tail(pattern, n)[i].kind, x) == Tail(pattern, n)[j].id
    ensures StandsAt(pattern, n, questions, inputs + [x], q, |questions| + j)
  {
    BuiltAt(pattern, n, questions, |questions| + i);
    BuiltAt(pattern, n, questions, |questions| + j);
    q := StandNext(pattern, n, questions, inputs, p, |questions| + i, x, |questions| + j);
  }

  /** The ticket, then the end. */
  lemma TicketScript(pattern: Pattern, n: Names, questions: seq<SeedQuestion>, inputs: seq<Input>, p: Position, i: nat)
    requires Apart(n) && i + 1 < |Tail(pattern, n)| && StandsAt(pattern, n, questions, inputs, p, |questions| + i)
    requires Tail(pattern, n)[i].kind == SubmitTicket(n.completed.id)
    requires Tail(pattern, n)[i + 1] == EndStep(n.completed, EndOutcome.Completed)
    ensures Says(BuiltWith(pattern, n, questions), inputs + [TicketDone], Ok(n.completed.id, Finished(EndOutcome.Completed)))
  {
    var q := StandInTail(pattern, n, questions, inputs, p, i, TicketDone, i + 1);
  }

  /** The conversations from a granted last approval on, and the one from its rejection. */
  ghost predicate DecidedScript(g: Graph, n: Names, asked: seq<Input>) {
    && Says(g, asked + [Decide(Approve)], Ok(n.submit.id, ReadyToSubmitTicket))
    && Says(g, asked + [Decide(Approve)] + [TicketDone], Ok(n.completed.id, Finished(EndOutcome.Completed)))
    && Says(g, asked + [Decide(Reject)], Ok(n.rejected.id, Finished(EndOutcome.Rejected)))
  }

  /** From the last approval, at `i`; ticket and ends follow it. */
  lemma LastApprovalScript(pattern: Pattern, n: Names, questions: seq<SeedQuestion>, asked: seq<Input>, p: Position, i: nat)
    requires Apart(n) && |Tail(pattern, n)| == i + 4 && StandsAt(pattern, n, questions, asked, p, |questions| + i)
    requires var kind := Tail(pattern, n)[i].kind;
             kind.WaitForApproval? && kind.onApprove == n.submit.id && kind.onReject == n.rejected.id
    requires Tail(pattern, n)[i + 1..] == SubmitAndEnds(n, true)
    ensures DecidedScript(BuiltWith(pattern, n, questions), n, asked)
  {
    var tail := Tail(pattern, n);
    assert tail[i + 1] == tail[i + 1..][0] && tail[i + 2] == tail[i + 1..][1] && tail[i + 3] == tail[i + 1..][2];
    var q := StandInTail(pattern, n, questions, asked, p, i, Decide(Approve), i + 1);
    TicketScript(pattern, n, questions, asked + [Decide(Approve)], q, i + 1);
    var r := StandInTail(pattern, n, questions, asked, p, i, Decide(Reject), i + 3);
  }

  /** Position `i` of the tail, right after the questions. */
  lemma AfterAnswers(pattern: Pattern, n: Names, questions: seq<SeedQuestion>, values: seq<Json>) returns (p: Position)
    requires Apart(n) && |values| == |questions|
    ensures StandsAt(pattern, n, questions, Answered(questions, values), p, |questions|)
    ensures !Tail(pattern, n)[0].kind.Branch?
    ensures Says(BuiltWith(pattern, n, questions), Answered(questions, values),
                 Ok(Tail(pattern, n)[0].id, OutcomeOf(Tail(pattern, n)[0].kind)))
  {
    p := StandAfterAnswers(pattern, n, questions, values, |questions|);
    assert Answered(questions, values)[..|questions|] == Answered(questions, values);
    BuiltAt(pattern, n, questions, |questions|);
  }

  ghost predicate Script(pattern: Pattern, n: Names, g: Graph, told: seq<Input>) {
    match pattern
    case InfoOnly => Says(g, told, Ok(n.completed.id, Finished(EndOutcome.Completed)))
    case SimpleTicket =>
      && Says(g, told, Ok(n.submit.id, ReadyToSubmitTicket))
      && Says(g, told + [TicketDone], Ok(n.completed.id, Finished(EndOutcome.Completed)))
    case ManagerApprovalTicket =>
      && Says(g, told, Ok(n.manager.id, AwaitingApproval(ManagerOfRequester, None)))
      && DecidedScript(g, n, told)
    case _ =>
      && Says(g, told, Ok(n.manager.id, AwaitingApproval(ManagerOfRequester, None)))
      && Says(g, told + [Decide(Reject)], Ok(n.rejected.id, Finished(EndOutcome.Rejected)))
      && Says(g, told + [Decide(Approve)], Ok(n.second.id, AwaitingApproval(RoleInDepartment(Role.Approver), None)))
      && DecidedScript(g, n, told + [Decide(Approve)])
  }

  lemma TwoApprovalTail(pattern: Pattern, n: Names)
    requires pattern.SecurityApprovalTicket? || pattern.FinanceApprovalTicket?
    ensures Tail(pattern, n) == [ManagerStep(n, n.second.id), SecondStep(n)] + SubmitAndEnds(n, true)
    ensures |Tail(pattern, n)| == 5 && Tail(pattern, n)[2..] == SubmitAndEnds(n, true)
    ensures Tail(pattern, n)[4] == EndStep(n.rejected, EndOutcome.Rejected)
  {
  }

  lemma TwoApprovalScript(pattern: Pattern, n: Names, questions: seq<SeedQuestion>, values: seq<Json>)
    requires Apart(n) && |values| == |questions| && (pattern.SecurityApprovalTicket? || pattern.FinanceApprovalTicket?)
    ensures Script(pattern, n, BuiltWith(pattern, n, questions), Answered(questions, values))
  {
    var told := Answered(questions, values);
    TwoApprovalTail(pattern, n);
    var p := AfterAnswers(pattern, n, questions, values);
    SecondApprovalScript(pattern, n, questions, told, p);
    FirstRejection(pattern, n, questions, told, p);
  }

  lemma FirstRejection(pattern: Pattern, n: Names, questions: seq<SeedQuestion>, told: seq<Input>, p: Position)
    requires Apart(n) && (pattern.SecurityApprovalTicket? || pattern.FinanceApprovalTicket?)
    requires StandsAt(pattern, n, questions, told, p, |questions|)
    ensures Says(BuiltWith(pattern, n, questions), told + [Decide(Reject)], Ok(n.rejected.id, Finished(EndOutcome.Rejected)))
  {
    TwoApprovalTail(pattern, n);
    var r := StandInTail(pattern, n, questions, told, p, 0, Decide(Reject), 4);
  }

  lemma SecondApprovalScript(pattern: Pattern, n: Names, questions: seq<SeedQuestion>, told: seq<Input>, p: Position)
    requires Apart(n) && (pattern.SecurityApprovalTicket? || pattern.FinanceApprovalTicket?)
    requires StandsAt(pattern, n, questions, told, p, |questions|)
    ensures Says(BuiltWith(pattern, n, questions), told + [Decide(Approve)],
                 Ok(n.second.id, AwaitingApproval(RoleInDepartment(Role.Approver), None)))
    ensures DecidedScript(BuiltWith(pattern, n, questions), n, told + [Decide(Approve)])
  {
    TwoApprovalTail(pattern, n);
    var q := StandInTail(pattern, n, questions, told, p, 0, Decide(Approve), 1);
    LastApprovalScript(pattern, n, questions, told + [Decide(Approve)], q, 1);
  }

  lemma ScriptWith(pattern: Pattern, n: Names, questions: seq<SeedQuestion>, values: seq<Json>)
    requires Apart(n) && |values| == |questions|
    ensures Script(pattern, n, BuiltWith(pattern, n, questions), Answered(questions, values))
  {
    if pattern.SecurityApprovalTicket? || pattern.FinanceApprovalTicket? {
      TwoApprovalScript(pattern, n, questions, values);
    } else {
      var told := Answered(questions, values);
      var p := AfterAnswers(pattern, n, questions, values);
      match pattern
      case SimpleTicket => TicketScript(pattern, n, questions, told, p, 0);
      case ManagerApprovalTicket =>
        assert Tail(pattern, n)[1..] == SubmitAndEnds(n, true);
        LastApprovalScript(pattern, n, questions, told, p, 0);
      case _ =>
    }
  }

  /** What is said once the last approval, asked for by these inputs, is decided. */
  ghost predicate TicketOrRejection(g: Graph, asked: seq<Input>) {
    && Says(g, asked + [Decide(Approve)], Ok("submit", ReadyToSubmitTicket))
    && Says(g, asked + [Decide(Approve)] + [TicketDone], Ok("end_completed", Finished(EndOutcome.Completed)))
    && Says(g, asked + [Decide(Reject)], Ok("end_rejected", Finished(EndOutcome.Rejected)))
  }

  /**
   * The service after its questions, for every question list and every answers: whom each approval is asked of, in which
   * order, and how each decision and the ticket end.
   */
  lemma SeededScript(pattern: Pattern, questions: seq<SeedQuestion>, values: seq<Json>)
    requires |values| == |questions|
    ensures var g, told := Built(pattern, questions), Answered(questions, values);
            var manager := Ok("manager_approval", AwaitingApproval(ManagerOfRequester, None));
            match pattern
            case InfoOnly => Says(g, told, Ok("end_completed", Finished(EndOutcome.Completed)))
            case SimpleTicket =>
              && Says(g, told, Ok("submit", ReadyToSubmitTicket))
              && Says(g, told + [TicketDone], Ok("end_completed", Finished(EndOutcome.Completed)))
            case ManagerApprovalTicket => Says(g, told, manager) && TicketOrRejection(g, told)
            case _ =>
              var second := if pattern.SecurityApprovalTicket? then "security_approval" else "finance_approval";
              && Says(g, told, manager)
              && Says(g, told + [Decide(Reject)], Ok("end_rejected", Finished(EndOutcome.Rejected)))
              && Says(g, told + [Decide(Approve)], Ok(second, AwaitingApproval(RoleInDepartment(Role.Approver), None)))
              && TicketOrRejection(g, told + [Decide(Approve)])
  {
    NamesForApart(pattern);
    ScriptWith(pattern, NamesFor(pattern), questions, values);
  }

  /** Where the questions of a pattern lead. */
  function AfterQuestions(pattern: Pattern): StepId {
    match pattern case InfoOnly => "end_completed" case SimpleTicket => "submit" case _ => "manager_approval"
  }

  /** Each question is stored under its number with everything it was generated from. */
  lemma GeneratedQuestion(pattern: Pattern, questions: seq<SeedQuestion>, i: nat)
    requires i < |questions|
    ensures var q := questions[i];
            var next := if i + 1 < |questions| then "q" + Text.Decimal(i + 2) else AfterQuestions(pattern);
            Built(pattern, questions).Find("q" + Text.Decimal(i + 1)) ==
            Some(Step("q" + Text.Decimal(i + 1), q.caption, Question(q.fieldKey, q.inputType, q.required, q.options, next)))
  {
    var n := NamesFor(pattern);
    NamesForApart(pattern);
    BuiltAt(pattern, n, questions, i);
    BuiltDistinct(pattern, n, questions);
    FindAt(BuiltWith(pattern, n, questions), i);
  }
}
