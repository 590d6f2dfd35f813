/** The visual builder's model: a flat record per step, serialised to and hydrated from a graph. */
module Builder {
  import opened Workflow
  import opened Text

  datatype Kind = QuestionCard | BranchCard | ApprovalCard | TicketCard | EndCard

  /** `CompoundOp` stands for an and/or/not condition, which the builder keeps but cannot edit. */
  datatype ConditionOp = EqualsOp | NotEqualsOp | ExistsOp | InOp | CompoundOp(raw: Condition)

  datatype ValueType = AsString | AsNumber | AsBoolean

  datatype ApproverType = ManagerApprover | RoleApprover | StaticApprover

  /** Every card carries every field, whatever its kind. */
  datatype Card = Card(
    uid: nat,
    id: StepId,
    caption: string,
    kind: Kind,
    fieldKey: string,
    inputType: InputType,
    required: bool,
    options: seq<QuestionOption>,
    next: StepId,
    op: ConditionOp,
    conditionKey: string,
    valueType: ValueType,
    conditionValue: string,
    conditionValues: string,
    onTrue: StepId,
    onFalse: StepId,
    approverType: ApproverType,
    approverUser: string,
    approverRole: Role,
    onApprove: StepId,
    onReject: StepId,
    timeout: string,
    outcome: EndOutcome)

  // ---------- JavaScript's conversions, on the integers its numbers can hold ----------

  function ShowNumber(n: int): string {
    if n < 0 then "-" + Decimal(-n) else Decimal(n)
  }

  /** `Number(s)` on integer literals; anything else is not a number. */
  function ReadNumber(s: string): Option<int> {
    var t := Trim(s);
    if t == [] then Some(0)
    else if AllDigits(t) then Some(Value(t) as int)
    else if t[0] == '-' && |t| > 1 && AllDigits(t[1..]) then Some(-(Value(t[1..]) as int))
    else if t[0] == '+' && |t| > 1 && AllDigits(t[1..]) then Some(Value(t[1..]) as int)
    else None
  }

  /** `String(v)`, with null shown as nothing, as the builder and `join` both do. */
  function Show(v: Json): string {
    match v
    case JNull => ""
    case JBool(b) => if b then "true" else "false"
    case JNum(n) => ShowNumber(n)
    case JStr(s) => s
    case JArr(elems) => Join(ShowAll(elems), ",")
    case JObj(_) => "[object Object]"
  }

  function ShowAll(vs: seq<Json>): (r: seq<string>)
    ensures |r| == |vs| && forall i :: 0 <= i < |vs| ==> r[i] == Show(vs[i])
  {
    if vs == [] then [] else [Show(vs[0])] + ShowAll(vs[1..])
  }

  function TypeOf(v: Json): ValueType {
    if v.JNum? then AsNumber else if v.JBool? then AsBoolean else AsString
  }

  /** Not-a-number is written to JSON as null. */
  function Coerce(raw: string, t: ValueType): Json {
    match t
    case AsNumber => (match ReadNumber(raw) case Some(n) => JNum(n) case None => JNull)
    case AsBoolean => JBool(raw == "true")
    case AsString => JStr(raw)
  }

  // ---------- serialisation ----------

  function NonEmpty(pieces: seq<string>): seq<string> {
    if pieces == [] then []
    else if pieces[0] == [] then NonEmpty(pieces[1..])
    else [pieces[0]] + NonEmpty(pieces[1..])
  }

  function TrimAll(pieces: seq<string>): seq<string> {
    if pieces == [] then [] else [Trim(pieces[0])] + TrimAll(pieces[1..])
  }

  /** The entries of a comma-separated list. */
  function Entries(s: string): seq<string> {
    NonEmpty(TrimAll(Split(s, ',')))
  }

  function CoerceAll(entries: seq<string>, t: ValueType): (r: seq<Json>)
    ensures |r| == |entries| && forall i :: 0 <= i < |entries| ==> r[i] == Coerce(entries[i], t)
  {
    if entries == [] then [] else [Coerce(entries[0], t)] + CoerceAll(entries[1..], t)
  }

  function ConditionOf(c: Card): Condition {
    match c.op
    case CompoundOp(raw) => raw
    case ExistsOp => Exists(c.conditionKey)
    case InOp => In(c.conditionKey, CoerceAll(Entries(c.conditionValues), c.valueType))
    case EqualsOp => Equals(c.conditionKey, Coerce(c.conditionValue, c.valueType))
    case NotEqualsOp => NotEquals(c.conditionKey, Coerce(c.conditionValue, c.valueType))
  }

  function ResolutionOf(c: Card): ApproverResolution {
    match c.approverType
    case StaticApprover => Static(c.approverUser)
    case RoleApprover => RoleInDepartment(c.approverRole)
    case ManagerApprover => ManagerOfRequester
  }

  predicate IsChoice(t: InputType) {
    t.Select? || t.MultiSelect?
  }

  function TimeoutOf(s: string): Option<int> {
    if s == [] then None else ReadNumber(s)
  }

  function KindOf(c: Card): StepKind {
    match c.kind
    case QuestionCard => Question(c.fieldKey, c.inputType, c.required, if IsChoice(c.inputType) then c.options else [], c.next)
    case BranchCard => Branch(ConditionOf(c), c.onTrue, c.onFalse)
    case ApprovalCard => WaitForApproval(ResolutionOf(c), c.onApprove, c.onReject, TimeoutOf(c.timeout))
    case TicketCard => SubmitTicket(c.next)
    case EndCard => End(c.outcome)
  }

  function StepOf(c: Card): Step {
    Step(c.id, c.caption, KindOf(c))
  }

  function StepsOf(cards: seq<Card>): (r: seq<Step>)
    ensures |r| == |cards| && forall i :: 0 <= i < |cards| ==> r[i] == StepOf(cards[i])
  {
    if cards == [] then [] else [StepOf(cards[0])] + StepsOf(cards[1..])
  }

  /** A missing entry is written as the empty string. */
  function Serialise(cards: seq<Card>, entry: Option<StepId>): Graph {
    Graph(if entry.Some? then entry.value else "", StepsOf(cards))
  }

  // ---------- hydration ----------

  function CardKind(kind: StepKind): Kind {
    match kind
    case Question(_, _, _, _, _) => QuestionCard
    case Branch(_, _, _) => BranchCard
    case WaitForApproval(_, _, _, _) => ApprovalCard
    case SubmitTicket(_) => TicketCard
    case End(_) => EndCard
  }

  function CardName(kind: Kind): string {
    match kind
    case QuestionCard => "question"
    case BranchCard => "branch"
    case ApprovalCard => "wait_for_approval"
    case TicketCard => "submit_ticket"
    case EndCard => "end"
  }

  function NewCard(kind: Kind, counter: nat): Card {
    Card(counter, CardName(kind) + "_" + Decimal(counter), "", kind,
         "", InputType.Text, true, [], "",
         EqualsOp, "", AsString, "", "", "", "",
         ManagerApprover, "", Role.Approver, "", "", "",
         EndOutcome.Completed)
  }

  function HydrateCondition(card: Card, c: Condition): Card {
    match c
    case Equals(key, v) => card.(op := EqualsOp, conditionKey := key, valueType := TypeOf(v), conditionValue := Show(v))
    case NotEquals(key, v) => card.(op := NotEqualsOp, conditionKey := key, valueType := TypeOf(v), conditionValue := Show(v))
    case Exists(key) => card.(op := ExistsOp, conditionKey := key)
    case In(key, vs) =>
      card.(op := InOp, conditionKey := key,
            valueType := if vs == [] then AsString else TypeOf(vs[0]),
            conditionValues := Join(ShowAll(vs), ", "))
    case _ => card.(op := CompoundOp(c))
  }

  function HydrateResolution(card: Card, r: ApproverResolution): Card {
    match r
    case Static(user) => card.(approverType := StaticApprover, approverUser := user)
    case RoleInDepartment(role) => card.(approverType := RoleApprover, approverRole := role)
    case ManagerOfRequester => card.(approverType := ManagerApprover)
  }

  /** The `counter`-th hydrated step; an empty id is replaced by the generated one. */
  function HydrateStep(s: Step, counter: nat): Card {
    var blank := NewCard(CardKind(s.kind), counter);
    var card := blank.(id := if s.id == [] then blank.id else s.id, caption := s.caption);
    match s.kind
    case Question(key, inputType, required, options, next) =>
      card.(fieldKey := key, inputType := inputType, required := required, options := options, next := next)
    case Branch(condition, onTrue, onFalse) =>
      HydrateCondition(card, condition).(onTrue := onTrue, onFalse := onFalse)
    case WaitForApproval(resolution, onApprove, onReject, timeout) =>
      HydrateResolution(card, resolution).(onApprove := onApprove, onReject := onReject,
        timeout := if timeout.None? then "" else ShowNumber(timeout.value))
    case SubmitTicket(next) => card.(next := next)
    case End(outcome) => card.(outcome := outcome)
  }

  function HydrateSteps(steps: seq<Step>): (r: seq<Card>)
    ensures |r| == |steps| && forall i :: 0 <= i < |steps| ==> r[i] == HydrateStep(steps[i], i + 1)
  {
    if steps == [] then []
    else
      var before := HydrateSteps(steps[..|steps| - 1]);
      assert forall i :: 0 <= i < |steps| - 1 ==> steps[..|steps| - 1][i] == steps[i];
      before + [HydrateStep(steps[|steps| - 1], |steps|)]
  }

  function HydrateEntry(g: Graph): Option<StepId> {
    if g.entry != [] then Some(g.entry)
    else if g.steps == [] then None
    else Some(HydrateSteps(g.steps)[0].id)
  }

  /** Loading a graph into the builder and writing it out again. */
  function RoundTrip(g: Graph): Graph {
    Serialise(HydrateSteps(g.steps), HydrateEntry(g))
  }

  // ---------- what survives the round trip ----------

  predicate IsScalar(v: Json) {
    v.JBool? || v.JNum? || v.JStr?
  }

  /** A list entry that a comma-separated field can carry. */
  predicate IsEntry(s: string) {
    s != [] && Tight(s) && Lacks(s, ',')
  }

  predicate Listable(vs: seq<Json>) {
    || (forall v :: v in vs ==> v.JNum?)
    || (forall v :: v in vs ==> v.JBool?)
    || (forall v :: v in vs ==> v.JStr? && IsEntry(v.s))
  }

  predicate EditableCondition(c: Condition) {
    match c
    case Equals(_, v) => IsScalar(v)
    case NotEquals(_, v) => IsScalar(v)
    case In(_, vs) => Listable(vs)
    case _ => true
  }

  predicate EditableStep(s: Step) {
    && s.id != []
    && (s.kind.Question? ==> s.kind.options == [] || s.kind.inputType in {Select, MultiSelect})
    && (s.kind.Branch? ==> EditableCondition(s.kind.condition))
  }

  predicate Editable(g: Graph) {
    (g.entry != [] || g.steps == []) && forall s :: s in g.steps ==> EditableStep(s)
  }
}

/** Exactly which graphs the builder hands back unchanged. */
module BuilderRoundTrip {
  import opened Workflow
  import opened Text
  import opened Builder

  lemma DigitsTight(s: string)
    requires s != [] && AllDigits(s)
    ensures Tight(s) && IsEntry(s)
  {
    assert IsDigit(s[0]) && IsDigit(s[|s| - 1]);
  }

  lemma NumberReadsBack(n: int)
    ensures ReadNumber(ShowNumber(n)) == Some(n) && IsEntry(ShowNumber(n))
  {
    var m: nat := if n < 0 then -n else n;
    DecimalReadsBack(m);
    DigitsTight(Decimal(m));
    var s := ShowNumber(n);
    if n < 0 {
      assert s[1..] == Decimal(m) && s[0] == '-' && s[|s| - 1] == Decimal(m)[|Decimal(m)| - 1];
      assert !IsDigit(s[0]);
    }
    TrimOfTight(s);
  }

  /** A single value comes back exactly when it is a string, a boolean or a number. */
  lemma ValueRoundTrip(v: Json)
    ensures Coerce(Show(v), TypeOf(v)) == v <==> IsScalar(v)
  {
    if v.JNum? {
      NumberReadsBack(v.n);
    } else if v.JBool? {
      assert "true"[0] == 't' && "false"[0] == 'f';
    }
  }

  lemma {:induction false} EntriesAreEntries(pieces: seq<string>)
    requires forall i :: 0 <= i < |pieces| ==> Lacks(pieces[i], ',')
    ensures forall i :: 0 <= i < |NonEmpty(TrimAll(pieces))| ==> IsEntry(NonEmpty(TrimAll(pieces))[i])
  {
    if pieces != [] {
      EntriesAreEntries(pieces[1..]);
      TrimIsTight(pieces[0]);
      assert TrimAll(pieces)[1..] == TrimAll(pieces[1..]);
    }
  }

  lemma TrimSpaceFirst(s: string)
    ensures Trim([' '] + s) == Trim(s)
  {
    assert ([' '] + s)[1..] == s;
  }

  lemma EntriesSkipSpace(s: string)
    ensures Entries([' '] + s) == Entries(s)
  {
    var pieces := Split(s, ',');
    assert ([' '] + s)[1..] == s;
    var shifted := Split([' '] + s, ',');
    assert shifted == [[' '] + pieces[0]] + pieces[1..];
    TrimSpaceFirst(pieces[0]);
    assert shifted[1..] == pieces[1..];
    assert TrimAll(shifted) == [Trim(shifted[0])] + TrimAll(pieces[1..]);
  }

  /** Joining and re-splitting keeps tight, comma-free texts, except that empty ones vanish. */
  lemma {:induction false} EntriesOfJoin(texts: seq<string>)
    requires forall i :: 0 <= i < |texts| ==> Tight(texts[i]) && Lacks(texts[i], ',')
    ensures Entries(Join(texts, ", ")) == NonEmpty(texts)
  {
    if texts == [] {
      assert Split([], ',') == [[]];
      assert TrimAll([[]]) == [[]] + TrimAll([]);
    } else {
      var t := texts[0];
      TrimOfTight(t);
      if |texts| == 1 {
        SplitLacking(t, ',');
        assert [t][1..] == [] && texts[1..] == [];
        assert TrimAll([t]) == [t];
      } else {
        var rest := Join(texts[1..], ", ");
        EntriesOfJoin(texts[1..]);
        assert Join(texts, ", ") == t + [','] + ([' '] + rest);
        SplitAtSeparator(t, ',', [' '] + rest);
        EntriesSkipSpace(rest);
        var pieces := [t] + Split([' '] + rest, ',');
        assert pieces[1..] == Split([' '] + rest, ',');
        assert TrimAll(pieces) == [t] + TrimAll(pieces[1..]);
        assert ([t] + TrimAll(pieces[1..]))[1..] == TrimAll(pieces[1..]);
      }
    }
  }

  lemma {:induction false} NonEmptyAll(texts: seq<string>)
    ensures |NonEmpty(texts)| <= |texts|
    ensures (forall i :: 0 <= i < |texts| ==> texts[i] != []) ==> NonEmpty(texts) == texts
    ensures |NonEmpty(texts)| == |texts| ==> forall i :: 0 <= i < |texts| ==> texts[i] != []
  {
    if texts != [] {
      NonEmptyAll(texts[1..]);
      assert forall i :: 1 <= i < |texts| ==> texts[i] == texts[1..][i - 1];
    }
  }

  function ListBack(vs: seq<Json>): seq<Json> {
    CoerceAll(Entries(Join(ShowAll(vs), ", ")), if vs == [] then AsString else TypeOf(vs[0]))
  }

  lemma ListableComesBack(vs: seq<Json>)
    requires Listable(vs)
    ensures ListBack(vs) == vs
  {
    var texts := ShowAll(vs);
    forall i | 0 <= i < |texts| ensures IsEntry(texts[i]) && Coerce(texts[i], TypeOf(vs[0])) == vs[i] {
      assert vs[i] in vs && vs[0] in vs;
      ValueRoundTrip(vs[i]);
      if vs[i].JNum? {
        NumberReadsBack(vs[i].n);
      }
    }
    EntriesOfJoin(texts);
    NonEmptyAll(texts);
  }

  /** Coercion to numbers yields numbers or null, and null entries leave no text behind. */
  lemma NumbersOnlyFromNumbers(vs: seq<Json>)
    requires vs != [] && vs[0].JNum? && ListBack(vs) == vs
    ensures forall v :: v in vs ==> v.JNum?
  {
    var texts := ShowAll(vs);
    forall i | 0 <= i < |vs| ensures Tight(texts[i]) && Lacks(texts[i], ',') && (vs[i].JNum? || vs[i].JNull?) {
      assert vs[i] == ListBack(vs)[i];
      if vs[i].JNum? {
        NumberReadsBack(vs[i].n);
      }
    }
    EntriesOfJoin(texts);
    NonEmptyAll(texts);
  }

  /** An `in` list comes back exactly when it is all numbers, all booleans, or all clean strings. */
  lemma ListRoundTrip(vs: seq<Json>)
    ensures ListBack(vs) == vs <==> Listable(vs)
  {
    if Listable(vs) {
      ListableComesBack(vs);
    }
    if ListBack(vs) == vs && vs != [] {
      EntriesAreEntries(Split(Join(ShowAll(vs), ", "), ','));
      if vs[0].JNum? {
        NumbersOnlyFromNumbers(vs);
      } else {
        forall v | v in vs ensures if vs[0].JBool? then v.JBool? else v.JStr? && IsEntry(v.s) {
          var i :| 0 <= i < |vs| && vs[i] == v;
          assert v == ListBack(vs)[i];
        }
      }
    }
  }

  lemma ConditionRoundTrip(card: Card, c: Condition)
    ensures ConditionOf(HydrateCondition(card, c)) == c <==> EditableCondition(c)
  {
    match c
    case Equals(_, v) => ValueRoundTrip(v);
    case NotEquals(_, v) => ValueRoundTrip(v);
    case In(key, vs) =>
      ListRoundTrip(vs);
      InComesBack(card, key, vs);
    case _ =>
  }

  lemma InComesBack(card: Card, key: string, vs: seq<Json>)
    ensures ConditionOf(HydrateCondition(card, In(key, vs))) == In(key, ListBack(vs))
  {
  }

  lemma TimeoutRoundTrip(timeout: Option<int>)
    ensures TimeoutOf(if timeout.None? then "" else ShowNumber(timeout.value)) == timeout
  {
    if timeout.Some? {
      NumberReadsBack(timeout.value);
    }
  }

  /** The card a step's own fields are written into. */
  function BlankFor(s: Step, counter: nat): Card {
    var blank := NewCard(CardKind(s.kind), counter);
    blank.(id := if s.id == [] then blank.id else s.id, caption := s.caption)
  }

  lemma HydratedHeader(s: Step, counter: nat)
    ensures HydrateStep(s, counter).id == BlankFor(s, counter).id != []
    ensures HydrateStep(s, counter).caption == s.caption && HydrateStep(s, counter).kind == CardKind(s.kind)
  {
    DecimalReadsBack(counter);
    assert NewCard(CardKind(s.kind), counter).id != [];
  }

  /** A loaded card keeps its step's id; without one it is named after its kind and its number. */
  lemma HydratedId(steps: seq<Step>, i: nat)
    requires i < |steps|
    ensures steps[i].id != [] ==> HydrateSteps(steps)[i].id == steps[i].id
    ensures steps[i].id == [] ==>
              exists name :: HydrateSteps(steps)[i].id == name + "_" + Decimal(i + 1)
                && match steps[i].kind
                   case Question(_, _, _, _, _) => name == "question"
                   case Branch(_, _, _) => name == "branch"
                   case WaitForApproval(_, _, _, _) => name == "wait_for_approval"
                   case SubmitTicket(_) => name == "submit_ticket"
                   case End(_) => name == "end"
  {
    HydratedHeader(steps[i], i + 1);
    assert BlankFor(steps[i], i + 1).id == if steps[i].id == [] then CardName(CardKind(steps[i].kind)) + "_" + Decimal(i + 1) else steps[i].id;
  }

  lemma BranchRoundTrip(s: Step, counter: nat)
    requires s.kind.Branch?
    ensures KindOf(HydrateStep(s, counter)) == s.kind <==> EditableCondition(s.kind.condition)
  {
    var card := BlankFor(s, counter);
    ConditionRoundTrip(card, s.kind.condition);
    var hydrated := HydrateCondition(card, s.kind.condition);
    assert ConditionOf(HydrateStep(s, counter)) == ConditionOf(hydrated);
  }

  lemma KindRoundTrip(s: Step, counter: nat)
    requires !s.kind.Branch?
    ensures KindOf(HydrateStep(s, counter)) == s.kind
            <==> (s.kind.Question? ==> s.kind.options == [] || IsChoice(s.kind.inputType))
  {
    if s.kind.WaitForApproval? {
      ApprovalRoundTrip(s, counter);
    }
  }

  lemma ApprovalRoundTrip(s: Step, counter: nat)
    requires s.kind.WaitForApproval?
    ensures KindOf(HydrateStep(s, counter)) == s.kind
  {
    TimeoutRoundTrip(s.kind.timeout);
  }

  lemma StepRoundTrip(s: Step, counter: nat)
    ensures StepOf(HydrateStep(s, counter)) == s <==> EditableStep(s)
    ensures HydrateStep(s, counter).id != []
  {
    HydratedHeader(s, counter);
    assert HydrateStep(s, counter).id == s.id <==> s.id != [];
    if s.kind.Branch? {
      BranchRoundTrip(s, counter);
    } else {
      KindRoundTrip(s, counter);
    }
  }

  /** The builder hands a graph back unchanged exactly when the graph is editable, condition by condition. */
  lemma RoundTripIff(g: Graph)
    ensures RoundTrip(g) == g <==> Editable(g)
  {
    var cards := HydrateSteps(g.steps);
    var back := RoundTrip(g);
    forall i | 0 <= i < |g.steps|
      ensures back.steps[i] == g.steps[i] <==> EditableStep(g.steps[i])
      ensures cards[i].id != []
    {
      StepRoundTrip(g.steps[i], i + 1);
    }
    assert back.steps == g.steps <==> forall i :: 0 <= i < |g.steps| ==> back.steps[i] == g.steps[i];
    assert (forall i :: 0 <= i < |g.steps| ==> EditableStep(g.steps[i])) <==> forall s :: s in g.steps ==> EditableStep(s);
    assert back.entry == g.entry <==> g.entry != [] || g.steps == [];
  }
}
