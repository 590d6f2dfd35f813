/** What validation and reordering in the builder mean for whole runs of the protocol. */
module RunMeaning {
  import opened Workflow
  import Engine
  import Sessions
  import opened Conversations
  import opened Tables
  import opened Orchestrator
  import opened Calls
  import opened Protocol
  import opened ProtocolSteps
  import opened Tellings
  import opened Refinement
  import Builder
  import BuilderEdits
  import BuilderMeaning

  // ---------- validated graphs ----------

  ghost predicate Dangles(reply: Reply) {
    reply.Refused? && reply.error.EngineFailure? && Sessions.DanglingReported(Engine.Err(reply.error.error))
  }

  lemma {:induction false} ApplyNeverDangles(t: Tables, g: Graph, id: Id, p: Position, env: Env)
    requires Closed(g) && Standing(g, p)
    ensures !Dangles(Applying(t, g, id, p, env).reply)
    decreases |env.dispatches|
  {
    if KindAt(g, p).SubmitTicket? && env.dispatches != [] && env.dispatches[0].Delivered? {
      Sessions.ClosedCall(g, p.stepId, p.answers, Sessions.TicketDone);
      if Moved(g, p, Sessions.TicketDone).Some? {
        MovedStands(g, p, Sessions.TicketDone);
        ApplyNeverDangles(WithTicket(t, id, p.stepId, Delivered), g, id, Moved(g, p, Sessions.TicketDone).value,
                          env.(dispatches := env.dispatches[1..]));
      }
    }
  }

  lemma InputNeverDangles(t: Tables, g: Graph, i: Id, x: Sessions.Input, env: Env)
    requires Closed(g) && InstanceOf(t, i, g) && Standing(g, PositionOf(t.instances[i]))
    ensures var p := PositionOf(t.instances[i]);
            && !Sessions.DanglingReported(Sessions.Call(g, p.stepId, p.answers, x).0)
            && (Moved(g, p, x).Some? ==> Standing(g, Moved(g, p, x).value) && !Dangles(Applying(t, g, i, Moved(g, p, x).value, env).reply))
  {
    var p := PositionOf(t.instances[i]);
    Sessions.ClosedCall(g, p.stepId, p.answers, x);
    if Moved(g, p, x).Some? {
      MovedStands(g, p, x);
      ApplyNeverDangles(t, g, i, Moved(g, p, x).value, env);
    }
  }

  /**
   * No orchestrator call on an instance of a validated graph, in any reachable state and whatever fails, is refused for
   * an unknown step or an empty graph.
   */
  lemma ValidatedRunsNeverDangle(w: World, actions: seq<Action>, cards: seq<Builder.Card>, entry: Option<StepId>, i: Id,
                                 requester: Id, key: string, value: Json, decision: ApprovalDecision, env: Env)
    requires Initial(w) && Legal(w, actions) && BuilderEdits.WellFormed(cards, entry)
    requires InstanceOf(Run(w, actions).tables, i, Builder.Serialise(cards, entry))
    ensures var t := Run(w, actions).tables;
            && !Dangles(SubmitAnswer(t, i, requester, key, value, env).reply)
            && !Dangles(ResumeAfterApproval(t, i, t.instances[i].stepId, decision, env).reply)
  {
    var t, g := Run(w, actions).tables, Builder.Serialise(cards, entry);
    BuilderMeaning.WellFormedCloses(cards, entry);
    RunsRefineConversations(w, actions, i);
    var talk :| Follows(Run(w, actions), g, i, talk);
    ArrivedStands(g, talk, PositionOf(t.instances[i]));
    var answer, decide := Sessions.Answer(key, value), Sessions.Decide(decision);
    InputNeverDangles(t, g, i, answer, env);
    InputNeverDangles(t, g, i, decide, env);
    AnswerReply(t, g, i, requester, key, value, env);
    ResumeReply(t, g, i, decision, env);
  }

  lemma AnswerReply(t: Tables, g: Graph, i: Id, requester: Id, key: string, value: Json, env: Env)
    requires InstanceOf(t, i, g)
    ensures var a, p, x := SubmitAnswer(t, i, requester, key, value, env), PositionOf(t.instances[i]), Sessions.Answer(key, value);
            || (a.reply.Refused? && !a.reply.error.EngineFailure?)
            || (Moved(g, p, x).None? && a.reply == Refused(EngineFailure(Sessions.Call(g, p.stepId, p.answers, x).0.error)))
            || (Moved(g, p, x).Some? && Standing(g, Moved(g, p, x).value) && a == Applying(t, g, i, Moved(g, p, x).value, env))
  {
    var p, x := PositionOf(t.instances[i]), Sessions.Answer(key, value);
    if Moved(g, p, x).Some? {
      MovedStands(g, p, x);
    }
  }

  lemma ResumeReply(t: Tables, g: Graph, i: Id, decision: ApprovalDecision, env: Env)
    requires InstanceOf(t, i, g)
    ensures var p, x := PositionOf(t.instances[i]), Sessions.Decide(decision);
            var a := ResumeAfterApproval(t, i, p.stepId, decision, env);
            || (Moved(g, p, x).None? && a.reply == Refused(EngineFailure(Sessions.Call(g, p.stepId, p.answers, x).0.error)))
            || (Moved(g, p, x).Some? && Standing(g, Moved(g, p, x).value) && a == Applying(t, g, i, Moved(g, p, x).value, env))
  {
    var p, x := PositionOf(t.instances[i]), Sessions.Decide(decision);
    if Moved(g, p, x).Some? {
      MovedStands(g, p, x);
    }
  }

  // ---------- graphs with the same lookups ----------

  /** The same tables with another graph stored under one definition. */
  function Redefined(t: Tables, d: Id, h: Graph): Tables {
    t.(definitions := t.definitions[d := h])
  }

  function RedefinedWorld(w: World, d: Id, h: Graph): World {
    w.(tables := Redefined(w.tables, d, h))
  }

  function RedefinedApplied(a: Applied, d: Id, h: Graph): Applied {
    a.(tables := Redefined(a.tables, d, h))
  }

  /** A call reads no graph but the one it is given, and that only through lookups. */
  lemma {:induction false} ApplyRedefined(t: Tables, g: Graph, h: Graph, d: Id, k: Graph, id: Id, answers: Answers, stepId: StepId,
                                          outcome: Engine.Outcome, env: Env)
    requires Sessions.SameLookup(g, h)
    ensures ApplyOutcome(Redefined(t, d, k), h, id, answers, stepId, outcome, env)
         == RedefinedApplied(ApplyOutcome(t, g, id, answers, stepId, outcome, env), d, k)
    decreases |env.dispatches|
  {
    if outcome.ReadyToSubmitTicket? && env.dispatches != [] {
      var d0 := env.dispatches[0];
      Sessions.LookupDecidesCall(g, h, stepId, answers, Sessions.TicketDone);
      var r := Engine.ResumeAfterTicketDispatch(g, stepId, answers);
      assert WithTicket(Redefined(t, d, k), id, stepId, d0) == Redefined(WithTicket(t, id, stepId, d0), d, k);
      if d0.Delivered? && r.Ok? {
        ApplyRedefined(WithTicket(t, id, stepId, d0), g, h, d, k, id, answers, r.stepId, r.outcome,
                       env.(dispatches := env.dispatches[1..]));
      }
    }
  }

  /** The graph an instance of definition `e` follows before and after. */
  lemma LookupUnder(t: Tables, d: Id, h: Graph, e: Id)
    requires d in t.definitions && Sessions.SameLookup(t.definitions[d], h) && e in t.definitions
    ensures Sessions.SameLookup(t.definitions[e], Redefined(t, d, h).definitions[e])
  {
  }

  lemma StartRedefined(t: Tables, d: Id, h: Graph, itemId: Id, requester: Id, env: Env)
    requires d in t.definitions && Sessions.SameLookup(t.definitions[d], h)
    ensures StartInstance(Redefined(t, d, h), itemId, requester, env)
         == RedefinedApplied(StartInstance(t, itemId, requester, env), d, h)
  {
    if itemId in t.items && t.items[itemId].definitionId in t.definitions {
      var e := t.items[itemId].definitionId;
      var g, k := t.definitions[e], Redefined(t, d, h).definitions[e];
      LookupUnder(t, d, h, e);
      assert g.Find(g.entry) == k.Find(k.entry);
      Sessions.LookupDecidesAdvance(g, k, g.entry, map[], Engine.MAX_AUTO_STEPS);
      var r := Engine.Start(g);
      if r.Ok? {
        ApplyRedefined(InsertInstance(t, env.instanceId, e, requester, r.stepId), g, k, d, h, env.instanceId, map[], r.stepId, r.outcome, env);
      }
    }
  }

  lemma AnswerRedefined(t: Tables, d: Id, h: Graph, id: Id, requester: Id, key: string, value: Json, env: Env)
    requires d in t.definitions && Sessions.SameLookup(t.definitions[d], h)
    ensures SubmitAnswer(Redefined(t, d, h), id, requester, key, value, env)
         == RedefinedApplied(SubmitAnswer(t, id, requester, key, value, env), d, h)
  {
    if id in t.instances && t.instances[id].definitionId in t.definitions {
      var row := t.instances[id];
      var g, k := t.definitions[row.definitionId], Redefined(t, d, h).definitions[row.definitionId];
      LookupUnder(t, d, h, row.definitionId);
      Sessions.LookupDecidesCall(g, k, row.stepId, row.answers, Sessions.Answer(key, value));
      var (r, answers) := Engine.SubmitAnswer(g, row.stepId, row.answers, key, value);
      if r.Ok? {
        ApplyRedefined(t, g, k, d, h, id, answers, r.stepId, r.outcome, env);
      }
    }
  }

  lemma ResumeRedefined(t: Tables, d: Id, h: Graph, id: Id, stepId: StepId, decision: ApprovalDecision, env: Env)
    requires d in t.definitions && Sessions.SameLookup(t.definitions[d], h)
    ensures ResumeAfterApproval(Redefined(t, d, h), id, stepId, decision, env)
         == RedefinedApplied(ResumeAfterApproval(t, id, stepId, decision, env), d, h)
  {
    if id in t.instances && t.instances[id].definitionId in t.definitions {
      var row := t.instances[id];
      var g, k := t.definitions[row.definitionId], Redefined(t, d, h).definitions[row.definitionId];
      LookupUnder(t, d, h, row.definitionId);
      Sessions.LookupDecidesCall(g, k, stepId, row.answers, Sessions.Decide(decision));
      var r := Engine.ResumeAfterApproval(g, stepId, row.answers, decision);
      if r.Ok? {
        ApplyRedefined(t, g, k, d, h, id, row.answers, r.stepId, r.outcome, env);
      }
    }
  }

  lemma StepRedefined(w: World, d: Id, h: Graph, action: Action)
    requires Enabled(w, action) && d in w.tables.definitions && Sessions.SameLookup(w.tables.definitions[d], h)
    ensures Enabled(RedefinedWorld(w, d, h), action)
    ensures Next(RedefinedWorld(w, d, h), action) == RedefinedWorld(Next(w, action), d, h)
  {
    var t, v := w.tables, RedefinedWorld(w, d, h);
    match action
    case Define(id, graph) =>
      assert t.definitions[id := graph][d := h] == t.definitions[d := h][id := graph];
    case StartRequest(itemId, requester, env) => StartRedefined(t, d, h, itemId, requester, env);
    case AnswerQuestion(id, requester, key, value, env) => AnswerRedefined(t, d, h, id, requester, key, value, env);
    case Proceed(pid, listing, env) => ProceedRedefined(w, d, h, pid, listing, env);
    case _ =>
  }

  lemma ProceedRedefined(w: World, d: Id, h: Graph, pid: nat, listing: seq<Id>, env: Env)
    requires Enabled(w, Proceed(pid, listing, env)) && d in w.tables.definitions && Sessions.SameLookup(w.tables.definitions[d], h)
    ensures Enabled(RedefinedWorld(w, d, h), Proceed(pid, listing, env))
    ensures Advanced(RedefinedWorld(w, d, h), pid, listing, env) == RedefinedWorld(Advanced(w, pid, listing, env), d, h)
  {
    var t, proc := w.tables, w.procs[pid];
    assert ExpiredIds(Redefined(t, d, h), w.clock) == ExpiredIds(t, w.clock);
    if Resuming(proc) {
      ResumeRedefined(t, d, h, proc.row.instanceId, proc.row.stepId, HeldDecision(proc), env);
    } else if proc.PollerListing? {
      assert Snapshot(Redefined(t, d, h), listing) == Snapshot(t, listing);
    }
  }

  lemma DefinitionKept(w: World, d: Id, action: Action)
    requires Enabled(w, action) && d in w.tables.definitions
    ensures d in Next(w, action).tables.definitions && Next(w, action).tables.definitions[d] == w.tables.definitions[d]
  {
    var t := w.tables;
    match action
    case StartRequest(itemId, requester, env) => StartEffect(t, itemId, requester, env);
    case AnswerQuestion(id, requester, key, value, env) => AnswerEffect(t, id, requester, key, value, env);
    case Proceed(pid, listing, env) =>
      ProceedTables(w, pid, listing, env);
      var proc := w.procs[pid];
      if Resuming(proc) {
        ResumeEffect(t, proc.row.instanceId, proc.row.stepId, HeldDecision(proc), env);
      }
    case _ =>
  }

  /** Storing a graph with the same lookups changes no run: every step is as legal, and leads to the same state. */
  lemma {:induction false} SameLookupSameRuns(w: World, d: Id, h: Graph, actions: seq<Action>)
    requires Legal(w, actions) && d in w.tables.definitions && Sessions.SameLookup(w.tables.definitions[d], h)
    ensures Legal(RedefinedWorld(w, d, h), actions)
    ensures Run(RedefinedWorld(w, d, h), actions) == RedefinedWorld(Run(w, actions), d, h)
    decreases |actions|
  {
    if actions != [] {
      StepRedefined(w, d, h, actions[0]);
      DefinitionKept(w, d, actions[0]);
      SameLookupSameRuns(Next(w, actions[0]), d, h, actions[1..]);
    }
  }

  /** Any series of moves in the builder leaves every run of the whole protocol as it was. */
  lemma ReorderKeepsRuns(w: World, d: Id, cards: seq<Builder.Card>, entry: Option<StepId>, moves: seq<nat>, actions: seq<Action>)
    requires BuilderEdits.WellFormed(cards, entry) && Legal(w, actions)
    requires d in w.tables.definitions && w.tables.definitions[d] == Builder.Serialise(cards, entry)
    ensures var h := Builder.Serialise(BuilderMeaning.Reordered(cards, moves), entry);
            && Legal(RedefinedWorld(w, d, h), actions)
            && Run(RedefinedWorld(w, d, h), actions) == RedefinedWorld(Run(w, actions), d, h)
  {
    BuilderMeaning.WellFormedCloses(cards, entry);
    BuilderMeaning.ReorderKeepsLookup(cards, entry, moves);
    SameLookupSameRuns(w, d, Builder.Serialise(BuilderMeaning.Reordered(cards, moves), entry), actions);
  }
}
