/** The catalog page's preview of the questions a requester will be asked. */
module Preview {
  import opened Workflow
  import opened Engine
  import Orbit
  import opened Sessions
  import opened Seed

  datatype QuestionPreview = QuestionPreview(caption: string, required: bool)

  function AsQuestion(found: Option<Step>): Option<Step> {
    if found.Some? && found.value.kind.Question? then found else None
  }

  /** The `k`-th step of the leading run of questions, if the run is that long. */
  function QuestionAt(g: Graph, k: nat): Option<Step> {
    if k == 0 then AsQuestion(g.Find(g.entry))
    else
      var before := QuestionAt(g, k - 1);
      if before.Some? && before.value.kind.Question? then AsQuestion(g.Find(before.value.kind.next)) else None
  }

  function PreviewOf(s: Step): QuestionPreview
    requires s.kind.Question?
  {
    QuestionPreview(s.caption, s.kind.required)
  }

  lemma {:induction false} QuestionAtIsQuestion(g: Graph, k: nat)
    requires QuestionAt(g, k).Some?
    ensures QuestionAt(g, k).value.kind.Question?
    ensures g.Find(QuestionAt(g, k).value.id) == QuestionAt(g, k)
    ensures QuestionAt(g, k).value in g.steps
  {
    var at := if k == 0 then g.entry else QuestionAt(g, k - 1).value.kind.next;
    FindIffHasId(g, at);
  }

  /** `r` lists the whole leading run and nothing else. */
  ghost predicate IsPreview(g: Graph, r: seq<QuestionPreview>) {
    && QuestionAt(g, |r|).None?
    && forall k: nat :: k < |r| ==> QuestionAt(g, k).Some? && QuestionAt(g, k).value.kind.Question?
                                    && r[k] == PreviewOf(QuestionAt(g, k).value)
  }

  ghost function Questions(g: Graph): nat -> Option<Step> {
    (k: nat) => QuestionAt(g, k)
  }

  /** The page's loop has no bound of its own: it ends exactly when the leading run of questions visits no step twice. */
  lemma PreviewEndsIff(g: Graph)
    ensures (exists n: nat :: QuestionAt(g, n).None?) <==> !Orbit.Repeats(Questions(g))
  {
    var s := Questions(g);
    forall n: nat ensures Orbit.StaysStopped(s, n) {
    }
    forall j: nat, k: nat ensures Orbit.InStep(s, j, k) {
    }
    var room := set step | step in g.steps;
    forall k: nat | s(k).Some? ensures s(k).value in room {
      QuestionAtIsQuestion(g, k);
    }
    Orbit.ForeverIffRepeats(s, room);
    if Orbit.Forever(s) {
      forall n: nat ensures QuestionAt(g, n).Some? {
        assert s(n).Some?;
      }
    } else {
      var n: nat :| s(n).None?;
      assert QuestionAt(g, n).None?;
    }
  }

  /** The loop; `stop` witnesses that the run of questions ends. */
  method PreviewQuestions(g: Graph, ghost stop: nat) returns (r: seq<QuestionPreview>)
    requires QuestionAt(g, stop).None?
    ensures IsPreview(g, r)
  {
    r := [];
    var current := g.Find(g.entry);
    while current.Some?
      invariant AsQuestion(current) == QuestionAt(g, |r|)
      invariant |r| <= stop
      invariant forall k: nat :: k < |r| ==> QuestionAt(g, k).Some? && QuestionAt(g, k).value.kind.Question?
                                             && r[k] == PreviewOf(QuestionAt(g, k).value)
      decreases stop - |r|
    {
      match current.value.kind {
        case Question(_, _, required, _, next) =>
          ghost var k := |r|;
          assert k < stop by {
            StopIsLater(g, k, stop);
          }
          r := r + [QuestionPreview(current.value.caption, required)];
          current := g.Find(next);
        case _ =>
          break;
      }
    }
  }

  lemma {:induction false} StopIsLater(g: Graph, k: nat, stop: nat)
    requires QuestionAt(g, k).Some? && QuestionAt(g, stop).None?
    ensures k < stop
    decreases k
  {
    if k > 0 && stop < k {
      StopIsLater(g, k - 1, stop);
    }
  }

  ghost predicate AnswersRun(g: Graph, from: nat, inputs: seq<Input>) {
    forall k :: 0 <= k < |inputs| ==> AnswersAt(g, from + k, inputs[k])
  }

  function Awaits(s: Step): EngineResult
    requires s.kind.Question?
  {
    Ok(s.id, AwaitingAnswer(s.kind.fieldKey))
  }

  lemma StopsAtQuestion(g: Graph, k: nat, id: StepId, answers: Answers)
    requires QuestionAt(g, k).Some? && g.Find(id) == QuestionAt(g, k)
    ensures QuestionAt(g, k).value.kind.Question? && QuestionAt(g, k).value.id == id
    ensures Advance(g, id, answers) == Awaits(QuestionAt(g, k).value)
  {
    QuestionAtIsQuestion(g, k);
    FindIffHasId(g, id);
  }

  /** From the `from`-th question on, the `k`-th result awaits the next question. */
  ghost predicate FollowsRun(g: Graph, from: nat, results: seq<EngineResult>) {
    forall k :: 0 <= k < |results| ==> AwaitsAt(g, from + k, results[k])
  }

  ghost predicate AwaitsAt(g: Graph, k: nat, r: EngineResult) {
    QuestionAt(g, k).Some? && QuestionAt(g, k).value.kind.Question? && r == Awaits(QuestionAt(g, k).value)
  }

  lemma FollowsRunStep(g: Graph, from: nat, r: EngineResult, rest: seq<EngineResult>)
    requires AwaitsAt(g, from, r) && FollowsRun(g, from + 1, rest)
    ensures FollowsRun(g, from, [r] + rest)
  {
    var all := [r] + rest;
    forall k | 0 <= k < |all| ensures AwaitsAt(g, from + k, all[k]) {
      if k > 0 {
        assert AwaitsAt(g, from + 1 + (k - 1), rest[k - 1]);
      }
    }
  }

  ghost predicate AnswersAt(g: Graph, k: nat, input: Input) {
    var q := QuestionAt(g, k);
    q.Some? && q.value.kind.Question? && input.Answer? && input.key == q.value.kind.fieldKey
  }

  lemma {:induction false} EngineFollowsRun(g: Graph, from: nat, id: StepId, answers: Answers, inputs: seq<Input>)
    requires g.Find(id) == QuestionAt(g, from) && QuestionAt(g, from + |inputs|).Some? && AnswersRun(g, from, inputs)
    ensures |ResultsFrom(g, id, answers, inputs)| == |inputs|
    ensures FollowsRun(g, from + 1, ResultsFrom(g, id, answers, inputs))
    decreases |inputs|
  {
    if inputs != [] {
      assert AnswersAt(g, from + 0, inputs[0]);
      var q := QuestionAt(g, from).value;
      RunReaches(g, from + 1, from + |inputs|);
      var (r, recorded) := Call(g, id, answers, inputs[0]);
      StopsAtQuestion(g, from + 1, q.kind.next, recorded);
      forall k | 0 <= k < |inputs| - 1 ensures AnswersAt(g, from + 1 + k, inputs[1..][k]) {
        assert AnswersAt(g, from + (k + 1), inputs[k + 1]);
      }
      EngineFollowsRun(g, from + 1, q.kind.next, recorded, inputs[1..]);
      FollowsRunStep(g, from + 1, r, ResultsFrom(g, q.kind.next, recorded, inputs[1..]));
    }
  }

  /** A run that is `n` long has every shorter question too. */
  lemma {:induction false} RunReaches(g: Graph, k: nat, n: nat)
    requires k <= n && QuestionAt(g, n).Some?
    ensures QuestionAt(g, k).Some?
    decreases n
  {
    if k < n {
      RunReaches(g, k, n - 1);
    }
  }

  lemma StartsAtQuestion(g: Graph)
    requires QuestionAt(g, 0).Some?
    ensures AwaitsAt(g, 0, Start(g)) && Start(g).Ok? && Start(g).stepId == g.entry
  {
    StopsAtQuestion(g, 0, g.entry, map[]);
  }

  /** The `k`-th previewed question is the one the engine awaits after `k` accepted answers. */
  lemma PreviewIsWhatTheEngineAsks(g: Graph, inputs: seq<Input>)
    requires QuestionAt(g, |inputs|).Some? && AnswersRun(g, 0, inputs)
    ensures |Results(g, inputs)| == |inputs| + 1
    ensures FollowsRun(g, 0, Results(g, inputs))
  {
    RunReaches(g, 0, |inputs|);
    StartsAtQuestion(g);
    EngineFollowsRun(g, 0, g.entry, map[], inputs);
    FollowsRunStep(g, 0, Start(g), ResultsFrom(g, g.entry, map[], inputs));
  }

  function Expected(questions: seq<SeedQuestion>): seq<QuestionPreview> {
    seq(|questions|, i requires 0 <= i < |questions| => QuestionPreview(questions[i].caption, questions[i].required))
  }

  lemma {:induction false} SeededQuestionAt(pattern: Pattern, n: Names, questions: seq<SeedQuestion>, k: nat)
    requires Apart(n) && k <= |questions|
    ensures QuestionAt(BuiltWith(pattern, n, questions), k) ==
            if k < |questions| then Some(QuestionStep(questions, k, Tail(pattern, n)[0].id)) else None
    decreases k
  {
    var g := BuiltWith(pattern, n, questions);
    BuiltAt(pattern, n, questions, k);
    BuiltDistinct(pattern, n, questions);
    FindAt(g, k);
    if k > 0 {
      SeededQuestionAt(pattern, n, questions, k - 1);
      BuiltAt(pattern, n, questions, k - 1);
    }
  }

  /** A generated graph previews exactly the captions and required flags it was generated from, in order. */
  lemma SeededPreview(pattern: Pattern, questions: seq<SeedQuestion>)
    ensures IsPreview(Built(pattern, questions), Expected(questions))
  {
    var n := NamesFor(pattern);
    NamesForApart(pattern);
    SeededPreviewWith(pattern, n, questions);
  }

  lemma SeededPreviewWith(pattern: Pattern, n: Names, questions: seq<SeedQuestion>)
    requires Apart(n)
    ensures IsPreview(BuiltWith(pattern, n, questions), Expected(questions))
  {
    forall k: nat | k <= |questions|
      ensures QuestionAt(BuiltWith(pattern, n, questions), k) ==
              if k < |questions| then Some(QuestionStep(questions, k, Tail(pattern, n)[0].id)) else None
    {
      SeededQuestionAt(pattern, n, questions, k);
    }
  }

  /** A graph has one preview. */
  lemma PreviewUnique(g: Graph, r: seq<QuestionPreview>, r': seq<QuestionPreview>)
    requires IsPreview(g, r) && IsPreview(g, r')
    ensures r == r'
  {
    assert QuestionAt(g, |r|).None? && QuestionAt(g, |r'|).None?;
  }

  /** What the catalog page shows for a generated service: exactly what it was generated from. */
  method PreviewSeeded(pattern: Pattern, questions: seq<SeedQuestion>) returns (r: seq<QuestionPreview>)
    ensures r == Expected(questions)
  {
    var g := BuildGraph(pattern, questions);
    SeededPreview(pattern, questions);
    assert |Expected(questions)| == |questions|;
    r := PreviewQuestions(g, |questions|);
    PreviewUnique(g, r, Expected(questions));
  }
}
