/** Editing in the builder: loading, renaming, reordering and validating. */
module BuilderEdits {
  import opened Workflow
  import opened Builder
  import opened Text

  function Rename(id: StepId, old_: StepId, new_: StepId): StepId {
    if id == old_ then new_ else id
  }

  /** All five reference fields follow, on every card and whatever its kind. */
  function RedirectCard(c: Card, old_: StepId, new_: StepId): Card {
    c.(next := Rename(c.next, old_, new_),
       onTrue := Rename(c.onTrue, old_, new_),
       onFalse := Rename(c.onFalse, old_, new_),
       onApprove := Rename(c.onApprove, old_, new_),
       onReject := Rename(c.onReject, old_, new_))
  }

  function RedirectCards(cards: seq<Card>, old_: StepId, new_: StepId): (r: seq<Card>)
    ensures |r| == |cards| && forall i :: 0 <= i < |cards| ==> r[i] == RedirectCard(cards[i], old_, new_)
  {
    if cards == [] then [] else [RedirectCard(cards[0], old_, new_)] + RedirectCards(cards[1..], old_, new_)
  }

  /** The cards after renaming the one at `i`. */
  function Renamed(cards: seq<Card>, i: nat, new_: StepId): seq<Card>
    requires i < |cards|
  {
    var redirected := RedirectCards(cards, cards[i].id, new_);
    redirected[i := redirected[i].(id := new_)]
  }

  predicate IdTaken(cards: seq<Card>, i: nat, id: StepId) {
    exists k :: 0 <= k < |cards| && k != i && cards[k].id == id
  }

  predicate MayRename(cards: seq<Card>, i: nat, id: StepId)
    requires i < |cards|
  {
    id != [] && id != cards[i].id && !IdTaken(cards, i, id)
  }

  function SwapAt(cards: seq<Card>, i: nat): seq<Card>
    requires i + 1 < |cards|
  {
    cards[i := cards[i + 1]][i + 1 := cards[i]]
  }

  datatype Problem =
    | NoSteps
    | NoEntry
    | NoEnd
    | EmptyId
    | DuplicateId(id: StepId)
    | MissingConnection(id: StepId)
    | UnresolvedConnection(id: StepId, to: StepId)
    | NoFieldKey(id: StepId)
    | NoConditionKey(id: StepId)
    | NoApprover(id: StepId)

  /** Names every plain object inherits: the validator's lookup table claims to have seen them before any step. */
  const INHERITED := {
    "constructor", "toString", "toLocaleString", "valueOf", "hasOwnProperty", "isPrototypeOf", "propertyIsEnumerable",
    "__proto__", "__defineGetter__", "__defineSetter__", "__lookupGetter__", "__lookupSetter__"
  }

  function OutgoingEdges(c: Card): seq<StepId> {
    match c.kind
    case QuestionCard => [c.next]
    case BranchCard => [c.onTrue, c.onFalse]
    case ApprovalCard => [c.onApprove, c.onReject]
    case TicketCard => [c.next]
    case EndCard => []
  }

  ghost predicate HasCard(cards: seq<Card>, id: StepId) {
    exists k :: 0 <= k < |cards| && cards[k].id == id
  }

  ghost predicate EdgesRight(cards: seq<Card>, c: Card) {
    forall e :: e in OutgoingEdges(c) ==> e != [] && HasCard(cards, e)
  }

  ghost predicate FieldsRight(c: Card) {
    && (c.kind.QuestionCard? ==> c.fieldKey != [])
    && (c.kind.BranchCard? && !c.op.CompoundOp? ==> c.conditionKey != [])
    && (c.kind.ApprovalCard? && c.approverType.StaticApprover? ==> c.approverUser != [])
  }

  /** What the validator asks of a card. */
  ghost predicate CardRight(cards: seq<Card>, i: nat)
    requires i < |cards|
  {
    && cards[i].id != [] && cards[i].id !in INHERITED && (forall k :: 0 <= k < i ==> cards[k].id != cards[i].id)
    && EdgesRight(cards, cards[i]) && FieldsRight(cards[i])
  }

  ghost predicate WellFormed(cards: seq<Card>, entry: Option<StepId>) {
    && cards != []
    && entry.Some? && entry.value != [] && HasCard(cards, entry.value)
    && (exists k :: 0 <= k < |cards| && cards[k].kind.EndCard?)
    && (forall i :: 0 <= i < |cards| ==> CardRight(cards, i))
  }

  method FindId(cards: seq<Card>, id: StepId) returns (found: bool)
    ensures found <==> HasCard(cards, id)
  {
    for i := 0 to |cards|
      invariant forall k :: 0 <= k < i ==> cards[k].id != id
    {
      if cards[i].id == id {
        return true;
      }
    }
    found := false;
  }

  method HasEnd(cards: seq<Card>) returns (found: bool)
    ensures found <==> exists k :: 0 <= k < |cards| && cards[k].kind.EndCard?
  {
    for i := 0 to |cards|
      invariant forall k :: 0 <= k < i ==> !cards[k].kind.EndCard?
    {
      if cards[i].kind.EndCard? {
        return true;
      }
    }
    found := false;
  }

  /** The problems of one card's connections. */
  ghost predicate EdgeProblem(cards: seq<Card>, c: Card, p: Problem) {
    match p
    case MissingConnection(id) => id == c.id && [] in OutgoingEdges(c)
    case UnresolvedConnection(id, to) => id == c.id && to != [] && to in OutgoingEdges(c) && !HasCard(cards, to)
    case _ => false
  }

  /** The problems of one card's own fields. */
  ghost predicate FieldProblem(c: Card, p: Problem) {
    match p
    case NoFieldKey(id) => id == c.id && c.kind.QuestionCard? && c.fieldKey == []
    case NoConditionKey(id) => id == c.id && c.kind.BranchCard? && !c.op.CompoundOp? && c.conditionKey == []
    case NoApprover(id) => id == c.id && c.kind.ApprovalCard? && c.approverType.StaticApprover? && c.approverUser == []
    case _ => false
  }

  ghost predicate UsedBefore(cards: seq<Card>, i: nat, id: StepId)
    requires i <= |cards|
  {
    id in INHERITED || exists k :: 0 <= k < i && cards[k].id == id
  }

  /** The problems of one card's id. */
  ghost predicate IdProblem(cards: seq<Card>, i: nat, p: Problem)
    requires i < |cards|
  {
    match p
    case EmptyId => cards[i].id == []
    case DuplicateId(id) => id == cards[i].id && id != [] && UsedBefore(cards, i, id)
    case _ => false
  }

  ghost predicate CardProblem(cards: seq<Card>, i: nat, p: Problem)
    requires i < |cards|
  {
    IdProblem(cards, i, p) || EdgeProblem(cards, cards[i], p) || FieldProblem(cards[i], p)
  }

  ghost predicate SomeCardProblem(cards: seq<Card>, n: nat, p: Problem)
    requires n <= |cards|
  {
    exists i :: 0 <= i < n && CardProblem(cards, i, p)
  }

  /** What is wrong with a builder state, problem by problem. */
  ghost predicate Has(cards: seq<Card>, entry: Option<StepId>, p: Problem) {
    match p
    case NoSteps => cards == []
    case NoEntry => cards != [] && (entry.None? || entry.value == [] || !HasCard(cards, entry.value))
    case NoEnd => cards != [] && forall k :: 0 <= k < |cards| ==> !cards[k].kind.EndCard?
    case _ => SomeCardProblem(cards, |cards|, p)
  }

  method CheckEdges(cards: seq<Card>, c: Card) returns (problems: seq<Problem>)
    ensures forall p :: p in problems <==> EdgeProblem(cards, c, p)
  {
    problems := [];
    var edges := OutgoingEdges(c);
    for i := 0 to |edges|
      invariant forall p :: p in problems <==> EdgeProblem(cards, c, p) && EdgeOf(p) in edges[..i]
    {
      var known := FindId(cards, edges[i]);
      assert edges[..i + 1] == edges[..i] + [edges[i]];
      if edges[i] == [] {
        problems := problems + [MissingConnection(c.id)];
      } else if !known {
        problems := problems + [UnresolvedConnection(c.id, edges[i])];
      }
    }
    assert edges[..|edges|] == edges;
  }

  /** The connection a problem is about. */
  ghost function EdgeOf(p: Problem): StepId {
    if p.UnresolvedConnection? then p.to else []
  }

  method CheckFields(c: Card) returns (problems: seq<Problem>)
    ensures forall p :: p in problems <==> FieldProblem(c, p)
  {
    problems := [];
    if c.kind.QuestionCard? && c.fieldKey == [] {
      problems := problems + [NoFieldKey(c.id)];
    }
    if c.kind.BranchCard? && !c.op.CompoundOp? && c.conditionKey == [] {
      problems := problems + [NoConditionKey(c.id)];
    }
    if c.kind.ApprovalCard? && c.approverType.StaticApprover? && c.approverUser == [] {
      problems := problems + [NoApprover(c.id)];
    }
  }

  method CheckCards(cards: seq<Card>) returns (problems: seq<Problem>)
    ensures forall p :: p in problems <==> SomeCardProblem(cards, |cards|, p)
  {
    problems := [];
    var seen := INHERITED;
    for i := 0 to |cards|
      invariant forall s :: s in seen <==> UsedBefore(cards, i, s)
      invariant forall p :: p in problems <==> SomeCardProblem(cards, i, p)
    {
      var c := cards[i];
      var ids := [];
      if c.id == [] {
        ids := [EmptyId];
      } else if c.id in seen {
        ids := [DuplicateId(c.id)];
      }
      assert forall p :: p in ids <==> IdProblem(cards, i, p);
      seen := seen + {c.id};
      var edges := CheckEdges(cards, c);
      var fields := CheckFields(c);
      ghost var before := problems;
      problems := problems + ids + edges + fields;
      forall p ensures p in problems <==> SomeCardProblem(cards, i + 1, p) {
        OneMoreCard(cards, i, p);
        assert p in problems <==> p in before || p in ids || p in edges || p in fields;
      }
      forall s ensures s in seen <==> UsedBefore(cards, i + 1, s) {
        OneMoreUsed(cards, i, s);
      }
    }
  }

  lemma OneMoreCard(cards: seq<Card>, i: nat, p: Problem)
    requires i < |cards|
    ensures SomeCardProblem(cards, i + 1, p) <==> SomeCardProblem(cards, i, p) || CardProblem(cards, i, p)
  {
    if SomeCardProblem(cards, i, p) {
      var k :| 0 <= k < i && CardProblem(cards, k, p);
      assert 0 <= k < i + 1 && CardProblem(cards, k, p);
    }
  }

  lemma OneMoreUsed(cards: seq<Card>, i: nat, id: StepId)
    requires i < |cards|
    ensures UsedBefore(cards, i + 1, id) <==> UsedBefore(cards, i, id) || id == cards[i].id
  {
  }

  /** Repeated messages are shown once. */
  method Dedupe(problems: seq<Problem>) returns (r: seq<Problem>)
    ensures forall p :: p in r <==> p in problems
    ensures forall i, j :: 0 <= i < j < |r| ==> r[i] != r[j]
  {
    r := [];
    for i := 0 to |problems|
      invariant forall p :: p in r <==> p in problems[..i]
      invariant forall i, j :: 0 <= i < j < |r| ==> r[i] != r[j]
    {
      if problems[i] !in r {
        r := r + [problems[i]];
      }
      assert problems[..i + 1] == problems[..i] + [problems[i]];
    }
  }

  /** A state is well-formed exactly when nothing is wrong with it. */
  lemma WellFormedIffNoProblem(cards: seq<Card>, entry: Option<StepId>)
    ensures WellFormed(cards, entry) <==> forall p :: !Has(cards, entry, p)
  {
    if WellFormed(cards, entry) {
      forall p ensures !Has(cards, entry, p) {
        if i :| 0 <= i < |cards| && CardProblem(cards, i, p) {
          RightCardHasNone(cards, i, p);
        }
      }
    }
    if forall p :: !Has(cards, entry, p) {
      assert !Has(cards, entry, NoSteps) && !Has(cards, entry, NoEntry) && !Has(cards, entry, NoEnd);
      forall i | 0 <= i < |cards| ensures CardRight(cards, i) {
        forall p ensures !CardProblem(cards, i, p) {
          assert !Has(cards, entry, p);
        }
        NoneIsRight(cards, i);
      }
    }
  }

  lemma RightCardHasNone(cards: seq<Card>, i: nat, p: Problem)
    requires i < |cards| && CardRight(cards, i)
    ensures !CardProblem(cards, i, p)
  {
  }

  lemma NoneIsRight(cards: seq<Card>, i: nat)
    requires i < |cards| && forall p :: !CardProblem(cards, i, p)
    ensures CardRight(cards, i)
  {
    var c := cards[i];
    assert !CardProblem(cards, i, EmptyId) && !CardProblem(cards, i, DuplicateId(c.id));
    assert !CardProblem(cards, i, NoFieldKey(c.id)) && !CardProblem(cards, i, NoConditionKey(c.id));
    assert !CardProblem(cards, i, NoApprover(c.id)) && !CardProblem(cards, i, MissingConnection(c.id));
    forall e | e in OutgoingEdges(c) ensures e != [] && HasCard(cards, e) {
      assert !CardProblem(cards, i, UnresolvedConnection(c.id, e));
    }
  }

  /** The validator reports exactly what is wrong, each problem once; so it is silent exactly on well-formed states. */
  method Validate(cards: seq<Card>, entry: Option<StepId>) returns (problems: seq<Problem>)
    ensures forall p :: p in problems <==> Has(cards, entry, p)
    ensures forall i, j :: 0 <= i < j < |problems| ==> problems[i] != problems[j]
    ensures problems == [] <==> WellFormed(cards, entry)
  {
    WellFormedIffNoProblem(cards, entry);
    if cards == [] {
      problems := [NoSteps];
      assert NoSteps in problems;
      return;
    }
    var all := [];
    if entry.None? || entry.value == [] {
      all := all + [NoEntry];
    } else {
      var known := FindId(cards, entry.value);
      if !known {
        all := all + [NoEntry];
      }
    }
    var ends := HasEnd(cards);
    if !ends {
      all := all + [NoEnd];
    }
    var rest := CheckCards(cards);
    all := all + rest;
    problems := Dedupe(all);
    assert problems != [] ==> problems[0] in problems;
  }

  /** One card per step; the builder's counter is the number of cards made so far. */
  method LoadSteps(steps: seq<Step>) returns (cards: seq<Card>)
    ensures cards == HydrateSteps(steps)
  {
    cards := [];
    ghost var all := HydrateSteps(steps);
    for i := 0 to |steps|
      invariant cards == all[..i]
    {
      var card := HydrateStep(steps[i], i + 1);
      assert all[i] == card;
      cards := cards + [card];
    }
  }

  method Redirect(cards: seq<Card>, old_: StepId, new_: StepId) returns (r: seq<Card>)
    ensures r == RedirectCards(cards, old_, new_)
  {
    r := [];
    ghost var all := RedirectCards(cards, old_, new_);
    for k := 0 to |cards|
      invariant r == all[..k]
    {
      var card := RedirectCard(cards[k], old_, new_);
      assert all[k] == card;
      r := r + [card];
    }
  }

  /** The builder's mutable state. */
  class WorkflowBuilder {
    var cards: seq<Card>
    var entry: Option<StepId>
    var counter: nat

    constructor ()
      ensures cards == [] && entry == None && counter == 0
    {
      cards := [];
      entry := None;
      counter := 0;
    }

    function Saved(): Graph
      reads this
    {
      Serialise(cards, entry)
    }

    method HydrateFromGraph(g: Graph)
      modifies this
      ensures cards == HydrateSteps(g.steps) && entry == HydrateEntry(g) && counter == |g.steps|
      ensures Saved() == RoundTrip(g)
      ensures g.entry != [] ==> entry == Some(g.entry)
      ensures g.entry == [] && g.steps != [] ==> entry == Some(cards[0].id)
      ensures g.entry == [] && g.steps == [] ==> entry == None
    {
      cards := LoadSteps(g.steps);
      counter := |cards|;
      entry := if g.entry != [] then Some(g.entry) else if cards != [] then Some(cards[0].id) else None;
    }

    /** Refuses a blank or taken id; otherwise the card, every reference to it and the entry follow. */
    method CommitIdChange(i: nat, newId: StepId) returns (ok: bool)
      requires i < |cards|
      modifies this`cards, this`entry
      ensures ok <==> newId != [] && (newId == old(cards)[i].id || !IdTaken(old(cards), i, newId))
      ensures MayRename(old(cards), i, newId) ==>
                && cards == Renamed(old(cards), i, newId)
                && entry == (if old(entry) == Some(old(cards)[i].id) then Some(newId) else old(entry))
      ensures !MayRename(old(cards), i, newId) ==> cards == old(cards) && entry == old(entry)
    {
      var oldId := cards[i].id;
      if newId == [] {
        return false;
      }
      if newId == oldId {
        return true;
      }
      if IdTaken(cards, i, newId) {
        return false;
      }
      var redirected := Redirect(cards, oldId, newId);
      if entry == Some(oldId) {
        entry := Some(newId);
      }
      cards := redirected[i := redirected[i].(id := newId)];
      ok := true;
    }

    /** Take the card out, put it back one place earlier. */
    method MoveUp(i: nat)
      requires i < |cards|
      modifies this`cards
      ensures cards == if i > 0 then SwapAt(old(cards), i - 1) else old(cards)
      ensures i > 0 ==> |cards| == |old(cards)| && cards[i - 1] == old(cards)[i] && cards[i] == old(cards)[i - 1]
      ensures forall k :: 0 <= k < |old(cards)| && k != i && k != i - 1 ==> k < |cards| && cards[k] == old(cards)[k]
    {
      if i > 0 {
        var moved := cards[i];
        var without := cards[..i] + cards[i + 1..];
        cards := without[..i - 1] + [moved] + without[i - 1..];
      }
    }

    method MoveDown(i: nat)
      requires i < |cards|
      modifies this`cards
      ensures cards == if i + 1 < |old(cards)| then SwapAt(old(cards), i) else old(cards)
      ensures i + 1 < |old(cards)| ==> |cards| == |old(cards)| && cards[i + 1] == old(cards)[i] && cards[i] == old(cards)[i + 1]
      ensures forall k :: 0 <= k < |old(cards)| && k != i && k != i + 1 ==> k < |cards| && cards[k] == old(cards)[k]
    {
      if i < |cards| - 1 {
        var moved := cards[i];
        var without := cards[..i] + cards[i + 1..];
        cards := without[..i + 1] + [moved] + without[i + 1..];
      }
    }
  }
}

/** Edits of a validated builder change nothing a conversation could notice. */
module BuilderMeaning {
  import opened Workflow
  import opened Engine
  import BranchWalk
  import opened Sessions
  import opened Builder
  import opened BuilderEdits

  lemma EdgesAreTargets(c: Card)
    ensures forall t :: t in Targets(KindOf(c)) <==> t in OutgoingEdges(c)
  {
  }

  /** A validated state serialises to a closed graph with distinct ids. */
  lemma WellFormedCloses(cards: seq<Card>, entry: Option<StepId>)
    requires WellFormed(cards, entry)
    ensures Closed(Serialise(cards, entry)) && Serialise(cards, entry).DistinctIds()
  {
    var g := Serialise(cards, entry);
    forall id | HasCard(cards, id) ensures g.HasId(id) {
      var k :| 0 <= k < |cards| && cards[k].id == id;
      assert g.steps[k].id == id;
    }
    forall i, t | 0 <= i < |g.steps| && t in Targets(g.steps[i].kind) ensures g.HasId(t) {
      EdgesAreTargets(cards[i]);
      assert CardRight(cards, i);
    }
    forall i, j | 0 <= i < j < |g.steps| ensures g.steps[i].id != g.steps[j].id {
      assert CardRight(cards, j);
    }
  }

  /** So no conversation with a validated graph, whatever is sent to it, reports an unknown step or an empty graph. */
  lemma ValidatedNeverDangles(cards: seq<Card>, entry: Option<StepId>, inputs: seq<Input>)
    requires WellFormed(cards, entry)
    ensures var results := Results(Serialise(cards, entry), inputs);
            forall k :: 0 <= k < |results| ==> !DanglingReported(results[k])
  {
    WellFormedCloses(cards, entry);
    ClosedSession(Serialise(cards, entry), inputs);
  }

  // ---------- what a card stands for ----------

  /** The value a text field stands for. */
  ghost predicate Reads(raw: string, t: ValueType, v: Json) {
    match t
    case AsString => v == JStr(raw)
    case AsBoolean => v == JBool(raw == "true")
    case AsNumber => if ReadNumber(raw).Some? then v == JNum(ReadNumber(raw).value) else v == JNull
  }

  ghost predicate Recorded(answers: Answers, key: string, raw: string, t: ValueType) {
    exists v :: Reads(raw, t, v) && (key, v) in answers.Items
  }

  /** When a branch card takes its true side. */
  ghost predicate TakesTrueSide(c: Card, answers: Answers) {
    match c.op
    case EqualsOp => Recorded(answers, c.conditionKey, c.conditionValue, c.valueType)
    case NotEqualsOp => !Recorded(answers, c.conditionKey, c.conditionValue, c.valueType)
    case ExistsOp => c.conditionKey in answers.Keys
    case InOp =>
      var entries := Entries(c.conditionValues);
      exists i :: 0 <= i < |entries| && Recorded(answers, c.conditionKey, entries[i], c.valueType)
    case CompoundOp(raw) => Holds(raw, answers)
  }

  lemma RecordedIffCoerced(answers: Answers, key: string, raw: string, t: ValueType)
    ensures Recorded(answers, key, raw, t) <==> (key, Coerce(raw, t)) in answers.Items
  {
    assert Reads(raw, t, Coerce(raw, t));
  }

  lemma ConditionCardMeans(c: Card, answers: Answers)
    ensures Holds(ConditionOf(c), answers) <==> TakesTrueSide(c, answers)
  {
    RecordedIffCoerced(answers, c.conditionKey, c.conditionValue, c.valueType);
    if c.op.InOp? {
      var entries := Entries(c.conditionValues);
      forall i | 0 <= i < |entries|
        ensures Recorded(answers, c.conditionKey, entries[i], c.valueType)
           <==> (c.conditionKey, CoerceAll(entries, c.valueType)[i]) in answers.Items
      {
        RecordedIffCoerced(answers, c.conditionKey, entries[i], c.valueType);
      }
    }
  }

  /** Whom an approval card asks. */
  ghost predicate Asks(c: Card, resolution: ApproverResolution) {
    match c.approverType
    case StaticApprover => resolution == Static(c.approverUser)
    case RoleApprover => resolution == RoleInDepartment(c.approverRole)
    case ManagerApprover => resolution == ManagerOfRequester
  }

  /** What a requester is shown for a question card. */
  ghost predicate ShowsQuestion(g: Graph, c: Card) {
    && g.Find(c.id).Some? && g.Find(c.id).value.caption == c.caption
    && var kind := g.Find(c.id).value.kind;
       && kind.Question? && kind.inputType == c.inputType && kind.required == c.required
       && kind.options == if c.inputType in {Select, MultiSelect} then c.options else []
  }

  /** The engine at a saved card, whatever the answers so far: what it asks for, and where each input leads. */
  ghost predicate CardMeans(g: Graph, c: Card, answers: Answers) {
    match c.kind
    case QuestionCard =>
      && ShowsQuestion(g, c)
      && Advance(g, c.id, answers) == Ok(c.id, AwaitingAnswer(c.fieldKey))
      && forall value: Json :: Call(g, c.id, answers, Answer(c.fieldKey, value))
                           == (Advance(g, c.next, answers[c.fieldKey := value]), answers[c.fieldKey := value])
    case BranchCard =>
      BranchWalk.Walk(g, c.id, answers, 1) == Some(if TakesTrueSide(c, answers) then c.onTrue else c.onFalse)
    case ApprovalCard =>
      && (exists resolution :: Asks(c, resolution)
            && Advance(g, c.id, answers) == Ok(c.id, AwaitingApproval(resolution, if c.timeout == [] then None else ReadNumber(c.timeout))))
      && Call(g, c.id, answers, Decide(Approve)).0 == Advance(g, c.onApprove, answers)
      && Call(g, c.id, answers, Decide(Reject)).0 == Advance(g, c.onReject, answers)
    case TicketCard =>
      && Advance(g, c.id, answers) == Ok(c.id, ReadyToSubmitTicket)
      && Call(g, c.id, answers, TicketDone).0 == Advance(g, c.next, answers)
    case EndCard =>
      Advance(g, c.id, answers) == Ok(c.id, Finished(c.outcome))
  }

  /** A validated state is saved so that the engine does at each card what the card shows, starting at the entry. */
  lemma SavedCardsMean(cards: seq<Card>, entry: Option<StepId>, i: nat, answers: Answers)
    requires WellFormed(cards, entry) && i < |cards|
    ensures CardMeans(Serialise(cards, entry), cards[i], answers)
    ensures Start(Serialise(cards, entry)) == Advance(Serialise(cards, entry), entry.value, map[])
  {
    var g := Serialise(cards, entry);
    WellFormedCloses(cards, entry);
    FindAt(g, i);
    FindIffHasId(g, g.entry);
    FoundCardMeans(g, cards[i], answers);
  }

  lemma FoundCardMeans(g: Graph, c: Card, answers: Answers)
    requires g.Find(c.id) == Some(StepOf(c))
    ensures CardMeans(g, c, answers)
  {
    match c.kind
    case BranchCard =>
      ConditionCardMeans(c, answers);
      BranchWalk.BranchGoesByMeaning(g, c.id, answers, StepOf(c));
    case ApprovalCard => assert Asks(c, ResolutionOf(c));
    case _ =>
  }

  // ---------- reordering ----------

  function Swapped(k: nat, i: nat): nat {
    if k == i then i + 1 else if k == i + 1 then i else k
  }

  ghost predicate IsSwap(g: Graph, h: Graph, i: nat) {
    && h.entry == g.entry && |h.steps| == |g.steps| && i + 1 < |g.steps|
    && forall k :: 0 <= k < |g.steps| ==> h.steps[k] == g.steps[Swapped(k, i)]
  }

  lemma SwapKeepsIds(g: Graph, h: Graph, i: nat)
    requires IsSwap(g, h, i) && g.DistinctIds()
    ensures h.DistinctIds() && forall id :: g.HasId(id) <==> h.HasId(id)
  {
    forall j, k | 0 <= j < k < |h.steps| ensures h.steps[j].id != h.steps[k].id {
      assert Swapped(j, i) != Swapped(k, i);
    }
    forall id ensures g.HasId(id) <==> h.HasId(id) {
      if k :| 0 <= k < |g.steps| && g.steps[k].id == id {
        assert h.steps[Swapped(k, i)].id == id;
      }
      if k :| 0 <= k < |h.steps| && h.steps[k].id == id {
        assert g.steps[Swapped(k, i)].id == id;
      }
    }
  }

  lemma SwapKeepsFind(g: Graph, h: Graph, i: nat)
    requires IsSwap(g, h, i) && g.DistinctIds()
    ensures h.DistinctIds() && SameLookup(g, h)
  {
    SwapKeepsIds(g, h, i);
    forall id: StepId ensures g.Find(id) == h.Find(id) {
      FindIffHasId(g, id);
      FindIffHasId(h, id);
      if k: nat :| k < |g.steps| && g.steps[k].id == id {
        FindAt(g, k);
        FindAt(h, Swapped(k, i));
        assert h.steps[Swapped(k, i)] == g.steps[k];
      }
    }
  }

  lemma SwapKeepsLookup(cards: seq<Card>, entry: Option<StepId>, i: nat)
    requires i + 1 < |cards| && Serialise(cards, entry).DistinctIds()
    ensures Serialise(SwapAt(cards, i), entry).DistinctIds()
    ensures SameLookup(Serialise(cards, entry), Serialise(SwapAt(cards, i), entry))
  {
    var g, h := Serialise(cards, entry), Serialise(SwapAt(cards, i), entry);
    forall k | 0 <= k < |g.steps| ensures h.steps[k] == g.steps[Swapped(k, i)] {
      assert SwapAt(cards, i)[k] == cards[Swapped(k, i)];
    }
    SwapKeepsFind(g, h, i);
  }

  /** The cards after a series of adjacent swaps, those out of range doing nothing, as the buttons do. */
  function Reordered(cards: seq<Card>, moves: seq<nat>): seq<Card>
    decreases |moves|
  {
    if moves == [] then cards
    else Reordered(if moves[0] + 1 < |cards| then SwapAt(cards, moves[0]) else cards, moves[1..])
  }

  /** Any series of moves leaves the entry and every lookup as they were. */
  lemma {:induction false} ReorderKeepsLookup(cards: seq<Card>, entry: Option<StepId>, moves: seq<nat>)
    requires Serialise(cards, entry).DistinctIds()
    ensures SameLookup(Serialise(cards, entry), Serialise(Reordered(cards, moves), entry))
    decreases |moves|
  {
    if moves != [] {
      if moves[0] + 1 < |cards| {
        SwapKeepsLookup(cards, entry, moves[0]);
        ReorderKeepsLookup(SwapAt(cards, moves[0]), entry, moves[1..]);
      } else {
        ReorderKeepsLookup(cards, entry, moves[1..]);
      }
    }
  }

  /** So it leaves every result of every conversation as it was. */
  lemma ReorderKeepsMeaning(cards: seq<Card>, entry: Option<StepId>, moves: seq<nat>, inputs: seq<Input>)
    requires Serialise(cards, entry).DistinctIds()
    ensures Results(Serialise(Reordered(cards, moves), entry), inputs) == Results(Serialise(cards, entry), inputs)
  {
    ReorderKeepsLookup(cards, entry, moves);
    SameLookupSameSession(Serialise(cards, entry), Serialise(Reordered(cards, moves), entry), inputs);
  }

  // ---------- renaming ----------

  function RenameKind(kind: StepKind, old_: StepId, new_: StepId): StepKind {
    match kind
    case Question(_, _, _, _, next) => kind.(next := Rename(next, old_, new_))
    case Branch(_, onTrue, onFalse) => kind.(onTrue := Rename(onTrue, old_, new_), onFalse := Rename(onFalse, old_, new_))
    case WaitForApproval(_, onApprove, onReject, _) =>
      kind.(onApprove := Rename(onApprove, old_, new_), onReject := Rename(onReject, old_, new_))
    case SubmitTicket(next) => SubmitTicket(Rename(next, old_, new_))
    case End(_) => kind
  }

  function RenameStep(s: Step, old_: StepId, new_: StepId): Step {
    Step(Rename(s.id, old_, new_), s.caption, RenameKind(s.kind, old_, new_))
  }

  function RenameError(e: EngineError, old_: StepId, new_: StepId): EngineError {
    match e
    case UnknownStep(id) => UnknownStep(Rename(id, old_, new_))
    case WrongStepKind(id, expected, found) => WrongStepKind(Rename(id, old_, new_), expected, found)
    case UnexpectedField(id, expected, actual) => UnexpectedField(Rename(id, old_, new_), expected, actual)
    case _ => e
  }

  function RenameResult(r: EngineResult, old_: StepId, new_: StepId): EngineResult {
    match r
    case Ok(id, outcome) => Ok(Rename(id, old_, new_), outcome)
    case Err(e) => Err(RenameError(e, old_, new_))
  }

  function RenameResults(rs: seq<EngineResult>, old_: StepId, new_: StepId): seq<EngineResult> {
    if rs == [] then [] else [RenameResult(rs[0], old_, new_)] + RenameResults(rs[1..], old_, new_)
  }

  /** `h` is `g` with the id `old_` replaced by the unused `new_` throughout. */
  ghost predicate IsRenaming(g: Graph, h: Graph, old_: StepId, new_: StepId) {
    && !g.HasId(new_) && h.entry == Rename(g.entry, old_, new_)
    && |h.steps| == |g.steps|
    && forall i :: 0 <= i < |g.steps| ==> h.steps[i] == RenameStep(g.steps[i], old_, new_)
  }

  lemma SerialiseRedirected(c: Card, old_: StepId, new_: StepId)
    ensures KindOf(RedirectCard(c, old_, new_)) == RenameKind(KindOf(c), old_, new_)
  {
    var r := RedirectCard(c, old_, new_);
    assert ConditionOf(r) == ConditionOf(c) && ResolutionOf(r) == ResolutionOf(c);
  }

  lemma RenamedStepAt(cards: seq<Card>, i: nat, new_: StepId, k: nat)
    requires i < |cards| && k < |cards| && (k != i ==> cards[k].id != cards[i].id)
    ensures StepOf(Renamed(cards, i, new_)[k]) == RenameStep(StepOf(cards[k]), cards[i].id, new_)
  {
    var r := RedirectCard(cards[k], cards[i].id, new_);
    SerialiseRedirected(cards[k], cards[i].id, new_);
    RelabelKeepsKind(r, new_);
  }

  lemma RelabelKeepsKind(c: Card, id: StepId)
    ensures KindOf(c.(id := id)) == KindOf(c)
  {
    assert ConditionOf(c.(id := id)) == ConditionOf(c) && ResolutionOf(c.(id := id)) == ResolutionOf(c);
  }

  /** With distinct ids the builder's rename is a renaming of the graph. */
  lemma RenameRenamesGraph(cards: seq<Card>, entry: Option<StepId>, entry': Option<StepId>, i: nat, new_: StepId)
    requires Serialise(cards, entry).DistinctIds() && entry.Some? && i < |cards| && MayRename(cards, i, new_)
    requires entry' == if entry == Some(cards[i].id) then Some(new_) else entry
    ensures IsRenaming(Serialise(cards, entry), Serialise(Renamed(cards, i, new_), entry'), cards[i].id, new_)
  {
    var g := Serialise(cards, entry);
    var h := Serialise(Renamed(cards, i, new_), entry');
    forall k | 0 <= k < |g.steps| ensures h.steps[k] == RenameStep(g.steps[k], cards[i].id, new_) {
      assert g.steps[k].id == cards[k].id && g.steps[i].id == cards[i].id;
      RenamedStepAt(cards, i, new_, k);
    }
    forall k | 0 <= k < |g.steps| ensures g.steps[k].id != new_ {
      assert cards[k].id == new_ ==> k == i || IdTaken(cards, i, new_);
    }
  }

  lemma RenamedLookup(g: Graph, h: Graph, old_: StepId, new_: StepId, id: StepId)
    requires IsRenaming(g, h, old_, new_) && g.DistinctIds() && g.Find(id).Some?
    ensures h.Find(Rename(id, old_, new_)) == Some(RenameStep(g.Find(id).value, old_, new_))
  {
    FindIffHasId(g, id);
    var k :| 0 <= k < |g.steps| && g.steps[k] == g.Find(id).value;
    forall i, j | 0 <= i < j < |h.steps| ensures h.steps[i].id != h.steps[j].id {
      assert g.steps[i].id != g.steps[j].id && g.steps[i].id != new_ && g.steps[j].id != new_;
    }
    FindAt(h, k);
  }

  lemma {:induction false} RenamedAdvance(g: Graph, h: Graph, old_: StepId, new_: StepId, id: StepId, answers: Answers, fuel: nat)
    requires IsRenaming(g, h, old_, new_) && g.DistinctIds() && Closed(g) && g.Find(id).Some?
    ensures AdvanceWithin(h, Rename(id, old_, new_), answers, fuel) == RenameResult(AdvanceWithin(g, id, answers, fuel), old_, new_)
    decreases fuel
  {
    if fuel > 0 {
      RenamedLookup(g, h, old_, new_, id);
      if BranchWalk.AtBranch(g, id) {
        var target := BranchTarget(g.Find(id).value.kind, answers);
        ClosedTargets(g, id, target);
        RenamedAdvance(g, h, old_, new_, target, answers, fuel - 1);
      }
    }
  }

  lemma RenamedCall(g: Graph, h: Graph, old_: StepId, new_: StepId, id: StepId, answers: Answers, input: Input)
    requires IsRenaming(g, h, old_, new_) && g.DistinctIds() && Closed(g) && g.Find(id).Some?
    ensures var (r, recorded) := Call(g, id, answers, input);
            Call(h, Rename(id, old_, new_), answers, input) == (RenameResult(r, old_, new_), recorded)
  {
    RenamedLookup(g, h, old_, new_, id);
    var kind := g.Find(id).value.kind;
    forall t, a: Answers | t in Targets(kind)
      ensures Advance(h, Rename(t, old_, new_), a) == RenameResult(Advance(g, t, a), old_, new_)
    {
      ClosedTargets(g, id, t);
      RenamedAdvance(g, h, old_, new_, t, a, MAX_AUTO_STEPS);
    }
  }

  lemma {:induction false} RenamedResults(g: Graph, h: Graph, old_: StepId, new_: StepId, id: StepId, answers: Answers, inputs: seq<Input>)
    requires IsRenaming(g, h, old_, new_) && g.DistinctIds() && Closed(g) && g.Find(id).Some?
    ensures ResultsFrom(h, Rename(id, old_, new_), answers, inputs) == RenameResults(ResultsFrom(g, id, answers, inputs), old_, new_)
    decreases |inputs|
  {
    if inputs != [] {
      RenamedCall(g, h, old_, new_, id, answers, inputs[0]);
      ClosedCall(g, id, answers, inputs[0]);
      var (r, recorded) := Call(g, id, answers, inputs[0]);
      var at, kept := if r.Ok? then r.stepId else id, if r.Ok? then recorded else answers;
      RenamedResults(g, h, old_, new_, at, kept, inputs[1..]);
      var rest := ResultsFrom(g, at, kept, inputs[1..]);
      assert ([r] + rest)[1..] == rest;
    }
  }

  /** Every conversation with a renaming is the original conversation with the id replaced in its results. */
  lemma RenamingKeepsMeaning(g: Graph, h: Graph, old_: StepId, new_: StepId, inputs: seq<Input>)
    requires IsRenaming(g, h, old_, new_) && g.DistinctIds() && Closed(g)
    ensures Results(h, inputs) == RenameResults(Results(g, inputs), old_, new_)
  {
    FindIffHasId(g, g.entry);
    RenamedLookup(g, h, old_, new_, g.entry);
    RenamedAdvance(g, h, old_, new_, g.entry, map[], MAX_AUTO_STEPS);
    ClosedAdvance(g, g.entry, map[], MAX_AUTO_STEPS);
    var r := Start(g);
    if r.Ok? {
      RenamedResults(g, h, old_, new_, r.stepId, map[], inputs);
      var rest := ResultsFrom(g, r.stepId, map[], inputs);
      assert ([r] + rest)[1..] == rest;
    } else {
      assert [r][1..] == [];
    }
  }

  /** Renaming a card of a validated builder to an unused id, as `CommitIdChange` does it. */
  lemma RenameKeepsMeaning(cards: seq<Card>, entry: Option<StepId>, i: nat, new_: StepId, inputs: seq<Input>)
    requires WellFormed(cards, entry) && i < |cards| && MayRename(cards, i, new_)
    ensures var entry' := if entry == Some(cards[i].id) then Some(new_) else entry;
            Results(Serialise(Renamed(cards, i, new_), entry'), inputs)
            == RenameResults(Results(Serialise(cards, entry), inputs), cards[i].id, new_)
  {
    WellFormedCloses(cards, entry);
    var entry' := if entry == Some(cards[i].id) then Some(new_) else entry;
    RenameRenamesGraph(cards, entry, entry', i, new_);
    RenamingKeepsMeaning(Serialise(cards, entry), Serialise(Renamed(cards, i, new_), entry'), cards[i].id, new_, inputs);
  }
}
