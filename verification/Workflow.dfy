/** The step graph an administrator authors, and the JSON values a requester's answers hold. */
module Workflow {

  datatype Option<+T> = None | Some(value: T)

  /** JSON values. Numbers are integers: the engine only ever compares them. */
  datatype Json =
    | JNull
    | JBool(b: bool)
    | JNum(n: int)
    | JStr(s: string)
    | JArr(elems: seq<Json>)
    | JObj(fields: map<string, Json>)

  type Answers = map<string, Json>

  type StepId = string

  datatype Condition =
    | Equals(fieldKey: string, value: Json)
    | NotEquals(fieldKey: string, value: Json)
    | Exists(fieldKey: string)
    | In(fieldKey: string, values: seq<Json>)
    | And(conditions: seq<Condition>)
    | Or(conditions: seq<Condition>)
    | Not(condition: Condition)

  datatype InputType = Text | TextArea | Number | Boolean | Select | MultiSelect | Date

  datatype QuestionOption = QuestionOption(value: string, caption: string)

  datatype Role = Requester | Approver | Agent | Admin

  datatype ApproverResolution =
    | Static(userId: string)
    | ManagerOfRequester
    | RoleInDepartment(role: Role)

  datatype EndOutcome = Completed | Rejected | Cancelled

  datatype ApprovalDecision = Approve | Reject

  datatype StepKind =
    | Question(fieldKey: string, inputType: InputType, required: bool, options: seq<QuestionOption>, next: StepId)
    | Branch(condition: Condition, onTrue: StepId, onFalse: StepId)
    | WaitForApproval(resolution: ApproverResolution, onApprove: StepId, onReject: StepId, timeout: Option<int>)
    | SubmitTicket(next: StepId)
    | End(outcome: EndOutcome)

  datatype Step = Step(id: StepId, caption: string, kind: StepKind)

  /** The first step carrying `id`, as the source's linear search finds it. */
  function FindStep(steps: seq<Step>, id: StepId): Option<Step> {
    if steps == [] then None
    else if steps[0].id == id then Some(steps[0])
    else FindStep(steps[1..], id)
  }

  datatype Graph = Graph(entry: StepId, steps: seq<Step>) {
    function Find(id: StepId): Option<Step> {
      FindStep(steps, id)
    }

    ghost predicate HasId(id: StepId) {
      exists i :: 0 <= i < |steps| && steps[i].id == id
    }

    ghost predicate DistinctIds() {
      forall i, j :: 0 <= i < j < |steps| ==> steps[i].id != steps[j].id
    }
  }

  /** The ids a step can hand control to. */
  function Targets(kind: StepKind): set<StepId> {
    match kind
    case Question(_, _, _, _, next) => {next}
    case Branch(_, onTrue, onFalse) => {onTrue, onFalse}
    case WaitForApproval(_, onApprove, onReject, _) => {onApprove, onReject}
    case SubmitTicket(next) => {next}
    case End(_) => {}
  }

  /** Every reference resolves, the entry included. */
  ghost predicate Closed(g: Graph) {
    && g.HasId(g.entry)
    && forall i, t :: 0 <= i < |g.steps| && t in Targets(g.steps[i].kind) ==> g.HasId(t)
  }

  /** `Find` succeeds exactly on the ids present, with a step of the graph carrying that id and no earlier one. */
  lemma {:induction false} FindStepIsFirst(steps: seq<Step>, id: StepId)
    ensures FindStep(steps, id).None? <==> forall i :: 0 <= i < |steps| ==> steps[i].id != id
    ensures FindStep(steps, id).Some? ==>
              exists i :: 0 <= i < |steps| && steps[i] == FindStep(steps, id).value && steps[i].id == id
                          && forall j :: 0 <= j < i ==> steps[j].id != id
  {
    if steps != [] && steps[0].id != id {
      var rest := steps[1..];
      FindStepIsFirst(rest, id);
      assert forall i :: 1 <= i < |steps| ==> steps[i] == rest[i - 1];
      if FindStep(rest, id).Some? {
        var i :| 0 <= i < |rest| && rest[i] == FindStep(rest, id).value && rest[i].id == id
                 && forall j :: 0 <= j < i ==> rest[j].id != id;
        assert steps[i + 1] == FindStep(steps, id).value;
        assert forall j :: 0 <= j < i + 1 ==> steps[j].id != id;
      } else {
        assert forall i :: 0 <= i < |steps| ==> steps[i].id != id;
      }
    }
  }

  lemma FindIffHasId(g: Graph, id: StepId)
    ensures g.Find(id).Some? <==> g.HasId(id)
    ensures g.Find(id).Some? ==> g.Find(id).value in g.steps && g.Find(id).value.id == id
  {
    FindStepIsFirst(g.steps, id);
  }

  /** With distinct ids, the position of a step determines what `Find` returns for its id. */
  lemma FindAt(g: Graph, i: nat)
    requires g.DistinctIds() && i < |g.steps|
    ensures g.Find(g.steps[i].id) == Some(g.steps[i])
  {
    FindStepIsFirst(g.steps, g.steps[i].id);
  }

  /** A closed graph resolves every target of every step `Find` returns. */
  lemma ClosedTargets(g: Graph, id: StepId, t: StepId)
    requires Closed(g) && g.Find(id).Some? && t in Targets(g.Find(id).value.kind)
    ensures g.Find(t).Some?
  {
    FindIffHasId(g, id);
    var i :| 0 <= i < |g.steps| && g.steps[i] == g.Find(id).value;
    assert t in Targets(g.steps[i].kind);
    FindIffHasId(g, t);
  }
}
