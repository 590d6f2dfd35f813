# ServCat: request workflows, verified

ServCat lets a requester order a service. Each service follows a step graph that an administrator wrote: questions,
branches, approvals, tickets and ends. A small interpreter walks the graph, an orchestrator performs what each step asks
for (it saves the request, opens an approval, dispatches a ticket), and human approvers race a background poller that
expires overdue approvals. This project models that machinery in Dafny 4.11 and proves what it guarantees.

- **The engine** (`Workflow`, `Engine`, `BranchWalk`, `Sessions`, `Conversations`). The interpreter as written, with its
  bound of 256 iterations, against the walk an engine without a bound would make; and whole conversations with it, the
  positions they arrive at, the tickets they pass and the decisions they take.
- **One call** (`Tables`, `Orchestrator`, `Calls`, `TicketLoop`, `Admission`). The tables are maps; repository statements
  and orchestrator calls are methods on a `Database` object, each proved equal to a function on table contents. Everything
  a call draws from outside is its `Env`: the clock, fresh ids, whether an approver can be resolved, and the results of
  its dispatches in order. When the results run out the reply is `Running`: the call is still waiting for a connector.
  A loop that never ends is one that is `Running` for every number of results.
- **Whole runs** (`Protocol`, `ProtocolSteps`, `Guarantees`, `Provenance`, `Settlement`, `Records`, `Processes`). A
  state machine with any number of requests, deciders and pollers. Deciders and pollers interleave statement by
  statement; an orchestrator call on an instance is one step. `Inv` is the invariant every step keeps. `Processes` holds
  the decision service, the approvals route and the poller as methods, each shown to be a run of the machine.
- **Runs against conversations** (`Tellings`, `Refinement`, `Simulation`, `SecondTicket`, `TicketExamples`, `Refusals`,
  `RunMeaning`). Every run carries on one engine conversation per instance, and every conversation is carried on by some
  run. From the two directions follow the exact condition for a second ticket, what refused calls leave behind and whom
  they strand, and what validating and reordering in the builder mean for whole runs.
- **Graph transformations** (`Builder`, `BuilderRoundTrip`, `BuilderEdits`, `BuilderMeaning`, `Seed`, `SeedRuns`,
  `SeedScripts`). The visual builder's load, save, rename, reorder and validate, and the starter catalog's graph
  generator, both related to what the engine does with their graphs.
- **Smaller mutable cores** (`Preview`, `FieldMapping`, `FieldMappingRender`, `SingleUse`, `Sso`). The question preview,
  dot-path ticket payloads, and the single-use sign-in tokens with time limits (the stores behind the client side of
  sections 4.1 to 4.5 of RFC 7636).
- `Orbit` and `Text` hold what several of these share: deterministic walks in finite rooms, decimal numerals, splitting
  and trimming.

Check everything with `dafny verify dfyconfig.toml`.

## Where the code and its documentation differ

- The graph type's documentation has references validated at publish. Publishing only sets a flag, so closure of a graph
  is a hypothesis here, or follows from the builder's validator or the generator.
- The ticket repository documents at most one ticket per instance. `SecondTicketIff` gives the exact condition under
  which some run breaks that: a conversation can stand at a ticket step with a ticket behind it, or an answer leads to a
  ticket behind which the call can break off, so that the same answer, sent again, sends the ticket again.
  `ChainSendsTwo` and `RetrySendsTwo` are runs of small graphs that do either.
- The graph type's documentation says a manager who cannot be resolved fails the instance. It never does
  (`UnresolvedApproverChangesNoRow`); `FailsIffDispatchFails` says what does. After a start or a resumption the instance is
  stranded for good (`UnresolvedStartStrands`, `UnresolvedApproverStrands`), after an answer it is not
  (`UnresolvedAnswerCanBeRepeated`).
- The engine's bound is meant to catch branch cycles. With at most 255 branch steps it catches exactly those
  (`BoundDetectsExactlyCycles`); 256 branches in a row without any cycle are caught as well (`BoundMisjudgesLongChain`).
- The builder's validator keeps the ids it has seen in a plain object, so an id such as `constructor` counts as already
  used. `WellFormed` says so, and the saved graph is sound all the same.

## Model

| member | source | states |
|---|---|---|
| `Workflow.FindStepIsFirst` | crates/model/src/workflow.rs:63-67 | lookup fails exactly on absent ids, and otherwise returns the first step carrying the id |
| `Workflow.ClosedTargets` | crates/model/src/workflow.rs:52-56 | in a closed graph every reference of every step that can be found is found |
| `Engine.Evaluate` | crates/workflow-engine/src/lib.rs:98-110 | the evaluation, lists walked until the first element that settles them, answers what the condition says about the recorded pairs of key and value |
| `Engine.EvalIffHolds` | crates/workflow-engine/src/lib.rs:98-110 | so does the function the walk is defined with: equality and membership of recorded pairs, all and any by position (true and false on empty lists), negation |
| `BranchWalk.BranchGoesByMeaning` | crates/workflow-engine/src/lib.rs:131-141 | one hop from a branch leads to its true side exactly when its condition holds in that sense, and to its false side otherwise |
| `Engine.AutoAdvance` | crates/workflow-engine/src/lib.rs:115-164 | the loop computes the bounded walk that the `BranchWalk` lemmas characterise without naming the bound's recursion |
| `BranchWalk.AdvanceWithinReads` | crates/workflow-engine/src/lib.rs:115-164 | every result of the bounded loop, for any bound, read off the unbounded walk: a stop, a lost reference, or more hops than allowed |
| `BranchWalk.AdvanceSucceedsIff` | crates/workflow-engine/src/lib.rs:115-164 | success with a step and outcome exactly when the unbounded walk stops at that non-branch step within 255 hops and the outcome is that step's |
| `BranchWalk.StopExcludesOthers` | crates/workflow-engine/src/lib.rs:115-164 | a walk known to stop within 255 hops makes the call return that stop and nothing else |
| `BranchWalk.AdvanceUnknownIff` | crates/workflow-engine/src/lib.rs:82-86 | an unknown step is reported exactly when the walk runs into that unresolved id within 255 hops |
| `BranchWalk.AdvanceTooManyIff` | crates/workflow-engine/src/lib.rs:163-163 | the bound is reported exactly when 256 branch hops are possible |
| `BranchWalk.LongWalkCycles` | crates/workflow-engine/src/lib.rs:76-80 | more hops than there are branch ids means the walk never ends (pigeonhole and determinism) |
| `BranchWalk.BoundDetectsExactlyCycles` | crates/workflow-engine/src/lib.rs:76-80 | with at most 255 branch ids the bound is reported exactly on walks that cycle through branches forever |
| `BranchWalk.BoundMisjudgesLongChain` | crates/workflow-engine/src/lib.rs:76-80 | 255 is sharp: an acyclic chain of 256 branches is reported as too many steps |
| `BranchWalk.ConditionFrame` | crates/workflow-engine/src/lib.rs:98-110 | a condition of any depth depends only on the answers to the keys it mentions |
| `BranchWalk.RoutingFrame` | crates/workflow-engine/src/lib.rs:98-164 | answers that agree on every key mentioned in any branch give identical results from every step |
| `BranchWalk.UnmentionedAnswerKeepsRoute` | crates/workflow-engine/src/lib.rs:98-164 | an answer to a key no branch mentions never changes the route |
| `BranchWalk.AdvanceLands` | crates/workflow-engine/src/lib.rs:115-164 | a successful call ends at a non-branch step of the graph with that step's own outcome |
| `BranchWalk.AdvanceAsksFor` | crates/workflow-engine/src/lib.rs:122-161 | what a successful call asks for is read off the fields of the step it stops at: the answer key, the approver resolution and timeout, the ticket, or the end outcome |
| `BranchWalk.StartResult` | crates/workflow-engine/src/lib.rs:167-172 | a start is refused as empty exactly when the entry is missing, and otherwise walks from it without answers |
| `BranchWalk.AnswerResult` | crates/workflow-engine/src/lib.rs:175-205 | every way an answer is taken or refused, with what is recorded in each |
| `BranchWalk.ResumeResult` | crates/workflow-engine/src/lib.rs:208-251 | every way a decision and a dispatched ticket are taken or refused; approval and rejection lead to their own targets |
| `Sessions.SameLookupSameSession` | crates/workflow-engine/src/lib.rs:167-251 | graphs with the same entry and the same lookups give identical results in every conversation |
| `Sessions.ClosedSession` | crates/workflow-engine/src/lib.rs:167-251 | no conversation over a closed graph, whatever is sent, reports an unknown step or an empty graph |
| `Conversations.ArrivesIffAllOk` | crates/workflow-engine/src/lib.rs:167-251 | a conversation without a refusal is one whose inputs lead, one accepted after the other, to a position |
| `Conversations.MovedStands` | crates/workflow-engine/src/lib.rs:175-251 | an accepted input fits the kind of the step it was sent to and leads to a step that is not a branch, with that step's outcome; only answers change the answers |
| `Conversations.AcceptedConversation` | crates/workflow-engine/src/lib.rs:175-251 | refused inputs leave nothing behind: the other results are those of the conversation that never sent them |
| `Tables.Database.CreateInstance` | crates/db/src/repositories/instances.rs:10-35 | inserts an in-progress row without answers at the given step and changes no other table |
| `Tables.Database.SaveProgress` | crates/db/src/repositories/instances.rs:70-102 | overwrites step, answers and status of an existing row, stamps the completion time on terminal statuses only, and returns the row; a missing row changes nothing |
| `Tables.Database.CreateApproval` | crates/db/src/repositories/approvals.rs:10-35 | inserts one pending, undecided row |
| `Tables.Database.Decide` | crates/db/src/repositories/approvals.rs:70-90 | the compare-and-set: succeeds exactly on a pending row, and then stores status, comment and time in it; otherwise changes nothing |
| `Tables.Database.ListExpired` | crates/db/src/repositories/approvals.rs:58-68 | lists exactly the rows that are pending with a deadline at or before now, each once |
| `Orchestrator.RunDispatch` | crates/server/src/orchestrator.rs:241-304 | no ticket row when rendering or configuration fails, a failed one when the connector fails, a sent one otherwise; succeeds only in the last case |
| `Orchestrator.DriveOutcome` | crates/server/src/orchestrator.rs:145-239 | the loop leaves the tables and gives the reply of `ApplyOutcome`, for every outcome and every sequence of dispatch results |
| `Orchestrator.Start` | crates/server/src/orchestrator.rs:33-65 | the whole new database and the reply, in every error case and in the good case |
| `Orchestrator.Answer` | crates/server/src/orchestrator.rs:67-109 | likewise for an answer: not found, forbidden, conflict, missing definition, engine error, or the applied outcome |
| `Orchestrator.Resume` | crates/server/src/orchestrator.rs:113-140 | likewise for a resumption, from the approval's step |
| `Admission.AnswerAdmission` | crates/server/src/orchestrator.rs:74-88 | not found exactly when there is no such instance, forbidden exactly when it is somebody else's, conflict exactly when it is the requester's but not in progress; all without a trace |
| `Admission.StartAdmission` | crates/server/src/orchestrator.rs:38-49 | not found exactly when there is no such service, conflict exactly when it is not offered; both without a trace |
| `Admission.ResumeAdmission` | crates/server/src/orchestrator.rs:119-124 | a missing instance or graph is an internal error without a trace, and nobody is turned away otherwise |
| `Admission.OnlyRequesterAnswers` | crates/server/src/orchestrator.rs:77-84 | a step of the machine in which an answer changes any table was made by the requester of that instance, while it was in progress |
| `Admission.StartedForRequester` | crates/server/src/orchestrator.rs:33-65 | a new instance belongs to whoever started it and follows the graph of a service that was offered |
| `Admission.RequesterStays` | crates/db/src/repositories/instances.rs:70-102 | no step of any run changes the requester of an instance |
| `Calls.ApplyEffect` | crates/server/src/orchestrator.rs:145-239 | all one call can do: other rows are untouched, tickets are only appended, for this instance and at ticket steps; at most one approval appears, pending and where the instance now awaits it; the row agrees with its step, or failed at a ticket step, or is unchanged |
| `Calls.AnswerEffect` | crates/server/src/orchestrator.rs:67-109 | an answer changes nothing, or the instance was in progress and the call had that effect |
| `Calls.ResumeEffect` | crates/server/src/orchestrator.rs:113-140 | a resumption changes nothing or has that effect |
| `Calls.StartEffect` | crates/server/src/orchestrator.rs:33-65 | a start changes nothing, or inserts a row at a non-branch step of its graph and has that effect on it |
| `Refusals.RefusedAnswerKeepsRow` | crates/server/src/orchestrator.rs:67-109 | a refused answer leaves no trace at all, or exactly the tickets its conversation passed before it broke off (and at most the one it stood at), no approval, and its own row unchanged or failed at that ticket step; nothing else in any table differs |
| `Refusals.RefusedResumeKeepsRow` | crates/server/src/orchestrator.rs:113-140 | the same for a refused resumption |
| `Refusals.UnresolvedApproverChangesNoRow` | crates/model/src/workflow.rs:144-146 | contrary to the comment: with no approver to be found at the approval its deliveries take it to, a call leaves those deliveries' tickets and nothing else, and is refused |
| `TicketLoop.LoopFollowsChain` | crates/server/src/orchestrator.rs:197-217 | with every dispatch delivered, the loop is still running after n deliveries exactly when the chain of ticket steps is longer than n, and it wrote that chain's tickets in path order |
| `TicketLoop.DivergesIffTicketRevisited` | crates/server/src/orchestrator.rs:154-238 | the loop never returns exactly when the chain comes back to a ticket step |
| `TicketLoop.ReturningLoopServesOnce` | crates/server/src/orchestrator.rs:154-238 | a returning loop served each ticket step at most once, so no more often than the graph has ticket steps |
| `TicketLoop.ReturnsIffRouteRests` | crates/server/src/orchestrator.rs:154-238 | with approvers resolvable and dispatches delivered, the loop returns with the row saved at a step, status in agreement, exactly when the hops through branches and tickets come to rest there with no more than 255 branches in a row |
| `TicketLoop.OneTicketPerCallIff` | crates/server/src/orchestrator.rs:197-217 | one call writes at most one ticket for its stored instance, wherever a conversation can take it and whatever the dispatch results, exactly when no conversation stands at a ticket step that leads straight on to another |
| `ProtocolSteps.FlipKeeps` | crates/db/src/repositories/approvals.rs:70-90 | the winner of a compare-and-set becomes the one process that will resume that approval, and the invariant holds again |
| `ProtocolSteps.ResumeKeeps` | crates/server/src/orchestrator.rs:113-140 | a resumption closes its approval, and any approval it opens is its instance's only open one |
| `ProtocolSteps.StepKeeps` | crates/server/src/orchestrator.rs:33-239 | every step of the machine keeps the invariant |
| `ProtocolSteps.RunKeeps` | crates/server/src/orchestrator.rs:33-239 | so does every run |
| `Guarantees.RaceIsSafe` | crates/approvals/src/poller.rs:38-60 | in every interleaving: no approval is resumed twice, each resumption carries the decision its row finally stores, expiry is stored only at or after the deadline, and every decision not yet resumed has exactly one process that will resume it |
| `Guarantees.OpenApprovalStandsAtStep` | crates/server/src/orchestrator.rs:168-195 | an instance has at most one approval that is pending or not yet resumed, and then awaits approval at that approval's step |
| `Guarantees.DecidedIsFinal` | crates/db/src/repositories/approvals.rs:70-90 | once decided, an approval row is never written again, in any run |
| `Guarantees.WinnerIsStored` | crates/db/src/repositories/approvals.rs:70-90 | the winning decider or poller stores status, comment and time of its decision, the poller with its fixed note; a loser changes nothing |
| `Guarantees.StuckForever` | crates/server/src/orchestrator.rs:67-140 | an instance with no open approval and no question to answer never changes again, nor gains a ticket or an approval |
| `Guarantees.TerminalAbsorbs` | crates/server/src/orchestrator.rs:80-84 | completed, rejected, cancelled and failed absorb: no later step of any run touches the row, its tickets or its approvals |
| `Refusals.UnresolvedApproverStrands` | crates/server/src/orchestrator.rs:172-184 | a resumption whose deliveries take it to an approval without an approver leaves the instance awaiting approval, untouched by every later step of every run |
| `Provenance.ApplyExplained` | crates/server/src/orchestrator.rs:145-239 | a call that starts on a backed path leaves its row and its new tickets at ends of backed paths |
| `Provenance.RunTraced` | crates/server/src/orchestrator.rs:33-239 | every run keeps every instance and every ticket at the end of a path from the entry, its approve edges backed by approved rows of that instance and its reject edges by rejected or expired ones |
| `Provenance.TicketsAreTraced` | crates/server/src/orchestrator.rs:197-217 | so every ticket ever sent stands at a ticket step that such a path leads to |
| `Settlement.StatusFitsStep` | crates/server/src/orchestrator.rs:33-239 | over any graphs and failures, status and step kind agree in every reachable state, except that a start that broke off may leave an in-progress row at an approval or ticket step |
| `Settlement.SoundCallSettles` | crates/server/src/orchestrator.rs:145-239 | in a closed graph within the bound, with approvers resolvable, a call that returns leaves status and step kind in agreement |
| `Settlement.StatusAgreesWithStep` | crates/server/src/orchestrator.rs:33-239 | when all starts of a run are on such graphs, resolve their approver and return, agreement holds in every reachable state, whatever answers and resumptions do |
| `SecondTicket.AtMostOneTicket` | crates/db/src/repositories/tickets.rs:42-45 | a consequence easy to check on a graph: where a ticket ends the request, no instance ever has two tickets, in any run and under any failures |
| `Records.ApplyOpens` | crates/approvals/src/service.rs:23-42 | a call opens an approval exactly when it reports awaiting one: for the resolved approver, at that step, with the deadline the step's timeout gives |
| `Records.AnswerOpens` | crates/server/src/orchestrator.rs:67-109 | so a refused answer opens none |
| `Records.ResumeOpens` | crates/server/src/orchestrator.rs:113-140 | nor does a refused resumption |
| `Records.CompletedExactlyWhenOver` | crates/db/src/repositories/instances.rs:67-102 | in every reachable state a row has a completion time exactly when its status is terminal, and never a future one |
| `Refusals.FailsIffDispatchFails` | crates/server/src/orchestrator.rs:197-211 | a call fails its instance exactly when its delivered dispatches take it to a ticket step whose dispatch is not rendered or not delivered |
| `Refusals.FailureLeaves` | crates/server/src/orchestrator.rs:197-211 | all that such a call leaves: the tickets delivered before, the failed one exactly if it was rendered, the row failed and stamped at that ticket step, nothing else, and an internal or a dispatch error accordingly |
| `Refusals.RefusedForApproverIff` | crates/server/src/orchestrator.rs:168-184 | a call is refused for want of an approver exactly when none can be found and its deliveries take it to an approval |
| `Refusals.UnresolvedStartStrands` | crates/server/src/orchestrator.rs:33-65 | a start whose deliveries take it to an approval without an approver leaves its row in progress where it was inserted, untouched by every later step of every run |
| `Refusals.UnresolvedAnswerCanBeRepeated` | crates/server/src/orchestrator.rs:67-109 | after an answer nobody is stranded: the same answer is accepted once an approver can be found, and sends the tickets again |
| `Tellings.ApplyTells` | crates/server/src/orchestrator.rs:145-239 | one call in conversation terms: the tickets it passed, in order, at most one more where it stood, and a row saved there in agreement with the step or a call broken off there for a reason the graph shows |
| `Refinement.StepHappens` | crates/server/src/orchestrator.rs:33-239 | every step of the machine means one of three things for an instance: nothing; an accepted input with the tickets passed after it and a row saved or a call broken off; or a resumption the engine refused, after which the instance is stuck |
| `Refinement.RunsRefineConversations` | crates/server/src/orchestrator.rs:33-239 | in every reachable state each row's step and answers are where some engine conversation arrives whose decisions are, one for one and in order, the instance's resumed approvals (the last one missing only if it is stuck), and each ticket was sent where such a conversation, with a prefix of those decisions, stood |
| `Simulation.SomeRunCarriesOn` | crates/server/src/orchestrator.rs:33-239 | conversely every accepted conversation is carried on by a legal run from an empty server, which sends a ticket for each ticket step passed and one for the step it stands at, or rests saved where the conversation arrived |
| `SecondTicket.TwoTicketsNeed` | crates/db/src/repositories/tickets.rs:42-45 | a run that gives an instance two tickets shows a conversation at a ticket step with a ticket behind it, or an answer leading to a ticket behind which the call may break off |
| `Simulation.SecondTicketIff` | crates/db/src/repositories/tickets.rs:42-45 | some run gives an instance of a graph two tickets exactly when one of these two conversations exists |
| `TicketExamples.ChainSendsTwo` | crates/db/src/repositories/tickets.rs:42-45 | a failing input: one start of a graph with two ticket steps in a row sends both tickets |
| `TicketExamples.RetrySendsTwo` | crates/db/src/repositories/tickets.rs:42-45 | a failing input with a single ticket step: an answer is refused for want of an approver after its ticket was sent, is sent again, and sends the ticket again |
| `Processes.Decide` | crates/approvals/src/service.rs:72-107 | follows the machine's statements; unknown, not the approver and already decided each exactly when that is so, without a change; otherwise the row is stored and returned with status, comment and time |
| `Processes.DecideAndResume` | crates/server/src/routes/approvals.rs:27-51 | a run of the machine that logs exactly one resumption with this decision, or none and changes nothing |
| `Processes.PollRow` | crates/approvals/src/poller.rs:43-58 | flips one listed row; if it was pending it is stored as expired with the fixed note and resumed as a rejection once, and no other row changes; all as steps of the machine |
| `Processes.PollOnce` | crates/approvals/src/poller.rs:38-60 | a whole poll is a run of the machine whose resumptions are all rejections, after which every row that was overdue is stored as expired |
| `Processes.HandleExpired` | crates/server/src/expiry_handler.rs:14-36 | expiry resumes as a rejection and swallows the reply |
| `Seed.AppendQuestions` | crates/server/src/catalog_seed.rs:267-293 | the loop appends one step per question, in order, each leading to the next and the last to the tail |
| `Seed.BuildGraph` | crates/server/src/catalog_seed.rs:189-265 | the generator's graph for every pattern and question list |
| `Seed.QuestionIdInjective` | crates/server/src/catalog_seed.rs:267-293 | generated question ids never collide, decimal printing being injective |
| `Seed.BuiltDistinct` | crates/server/src/catalog_seed.rs:189-318 | all ids of a generated graph differ |
| `Seed.BuiltClosed` | crates/server/src/catalog_seed.rs:189-318 | every reference of a generated graph resolves, with no questions too |
| `Seed.EdgesGoForward` | crates/server/src/catalog_seed.rs:189-318 | every reference leads to a strictly later step, so no generated graph has a cycle |
| `Seed.BuiltReachable` | crates/server/src/catalog_seed.rs:189-318 | every generated step lies on a path from the entry |
| `SeedRuns.BuiltCall` | crates/server/src/catalog_seed.rs:189-318 | the engine accepts exactly the inputs that suit the current step of a generated graph, and moves forward |
| `SeedRuns.SeededConversation` | crates/server/src/catalog_seed.rs:189-318 | in every conversation, refusals or not, the accepted inputs answer the questions once each and in order, answer nothing else, take at most two decisions and are at most three more than the questions; the results that are no refusals ask in that order |
| `SeedRuns.SeededNeverStuck` | crates/server/src/catalog_seed.rs:189-318 | every step of a generated graph that is not an end accepts some input, whatever the answers so far |
| `SeedRuns.SeededConversationGoesOn` | crates/server/src/catalog_seed.rs:189-318 | a conversation without a refusal that is not finished can go on without one, so, its length being bounded, it reaches an end |
| `SeedRuns.BuiltTicketEnds` | crates/server/src/catalog_seed.rs:295-318 | after a generated graph's ticket the request is finished |
| `SeedRuns.GrantedBefore` | crates/server/src/catalog_seed.rs:201-254 | whoever stands past an approval of a generated graph has an approved row for it |
| `SeedRuns.SeededTicketNeedsApprovals` | crates/server/src/catalog_seed.rs:192-254 | in every run, an instance of a generated graph that has a ticket was granted all approvals of its pattern, and has only that ticket |
| `SeedScripts.SeededScript` | crates/server/src/catalog_seed.rs:189-318 | for every question list and answers, word for word by pattern: the manager is asked first, then an approver by role at the security or finance step, a rejection ends rejected, a last approval leads to the ticket and that to completion |
| `SeedScripts.GeneratedQuestion` | crates/server/src/catalog_seed.rs:267-293 | each question is stored under its number with its caption, key, input type, required flag and options, leading to the next number or to the pattern's first step |
| `BuilderRoundTrip.NumberReadsBack` | crates/server/static/workflow_builder.js:268-272 | an integer that is shown and read again is itself |
| `BuilderRoundTrip.ValueRoundTrip` | crates/server/static/workflow_builder.js:268-272 | a compared value survives loading and saving exactly when it is a string, boolean or number |
| `BuilderRoundTrip.ListRoundTrip` | crates/server/static/workflow_builder.js:281-288 | a list survives exactly when it is all numbers, all booleans, or all trimmed, non-empty, comma-free strings |
| `BuilderRoundTrip.ConditionRoundTrip` | crates/server/static/workflow_builder.js:358-379 | and/or/not conditions of any depth come back verbatim, the others exactly when their values survive |
| `BuilderRoundTrip.RoundTripIff` | crates/server/static/workflow_builder.js:212-389 | loading a graph and saving it gives the same graph exactly when it is editable |
| `BuilderRoundTrip.HydratedId` | crates/server/static/workflow_builder.js:314-321 | a loaded card keeps its step's id, and without one is named after its kind and number |
| `BuilderEdits.Validate` | crates/server/static/workflow_builder.js:782-822 | reports exactly the problems the state has, each of ten kinds by its own condition on the cards, each once; so it is silent exactly on well-formed states |
| `BuilderEdits.WellFormedIffNoProblem` | crates/server/static/workflow_builder.js:782-822 | a state is well-formed exactly when none of the ten kinds of problem applies to it |
| `BuilderEdits.Dedupe` | crates/server/static/workflow_builder.js:821-821 | each message once, none lost |
| `BuilderEdits.WorkflowBuilder.HydrateFromGraph` | crates/server/static/workflow_builder.js:308-356 | the cards, the entry and the counter after loading, whatever was there before |
| `BuilderEdits.WorkflowBuilder.CommitIdChange` | crates/server/static/workflow_builder.js:691-710 | refuses blank and taken ids without a change; otherwise the card, every reference and the entry follow |
| `BuilderEdits.WorkflowBuilder.MoveUp` | crates/server/static/workflow_builder.js:741-742 | exchanges the card with the one before it, if there is one, and moves no other |
| `BuilderEdits.WorkflowBuilder.MoveDown` | crates/server/static/workflow_builder.js:743-744 | exchanges the card with the one after it, if there is one, and moves no other |
| `BuilderMeaning.WellFormedCloses` | crates/server/static/workflow_builder.js:170-189 | a validated state saves to a closed graph with distinct ids |
| `BuilderMeaning.SavedCardsMean` | crates/server/static/workflow_builder.js:212-304 | a validated state is saved so that the engine does at each card what its fields show: shows a question with its caption, input type, required flag and options, asks for its key or its approver, takes its true side exactly when its condition fields hold of the answers, and goes where each of its connections points |
| `BuilderMeaning.ValidatedNeverDangles` | crates/server/static/workflow_builder.js:782-822 | no conversation with a validated graph reports an unknown step or an empty graph |
| `RunMeaning.ValidatedRunsNeverDangle` | crates/server/static/workflow_builder.js:782-822 | no answer to and no resumption of an instance of a validated graph, in any reachable state, is refused for an unknown step or an empty graph |
| `BuilderMeaning.ReorderKeepsMeaning` | crates/server/static/workflow_builder.js:741-744 | any series of moves leaves every result of every conversation unchanged |
| `RunMeaning.ReorderKeepsRuns` | crates/server/static/workflow_builder.js:741-744 | any series of moves leaves every run of the whole protocol as it was: as legal, and leading to the same state |
| `BuilderMeaning.RenameKeepsMeaning` | crates/server/static/workflow_builder.js:691-710 | renaming to an unused id gives every conversation's results with that id substituted |
| `Preview.PreviewQuestions` | crates/server/src/web/pages/catalog.rs:141-157 | the loop lists the whole leading run of questions with captions and required flags, and nothing else |
| `Preview.PreviewEndsIff` | crates/server/src/web/pages/catalog.rs:141-157 | the run of questions ends, so that the loop does, exactly when it visits no step twice |
| `Preview.PreviewIsWhatTheEngineAsks` | crates/server/src/web/pages/catalog.rs:137-157 | the engine's result after k accepted answers awaits the k-th previewed question |
| `Preview.SeededPreview` | crates/server/src/catalog_seed.rs:267-293 | a generated graph previews exactly the captions and flags it was generated from, in order |
| `Preview.PreviewSeeded` | crates/server/src/web/pages/catalog.rs:141-157 | generating a graph and previewing it returns exactly the captions and required flags of the question list |
| `FieldMapping.SetDotPath` | crates/connectors/src/field_mapping.rs:63-83 | the cursor's descent computes the nested write along the key's dot-separated segments that the lemmas below characterise |
| `FieldMapping.SegmentsIff` | crates/connectors/src/field_mapping.rs:63-64 | a key's segments are the one path of dot-free segments that joined by dots gives the key |
| `FieldMapping.SetIntoNothing` | crates/connectors/src/field_mapping.rs:63-83 | a write into an empty object gives objects nested along the path and nothing else |
| `FieldMapping.GetAfterSet` | crates/connectors/src/field_mapping.rs:63-83 | what was written is read back at its path |
| `FieldMapping.GetBesideSet` | crates/connectors/src/field_mapping.rs:63-83 | every incomparable path reads as before |
| `FieldMapping.SetsCommute` | crates/connectors/src/field_mapping.rs:63-83 | writes to incomparable paths commute |
| `FieldMapping.LeavesAreWrites` | crates/connectors/src/field_mapping.rs:63-83 | after pairwise incomparable writes of strings the leaves are exactly the written paths |
| `FieldMappingRender.Render` | crates/connectors/src/field_mapping.rs:47-61 | a payload exactly when every template renders, made by the writes in iteration order; otherwise the error names the first field of that order that does not render |
| `FieldMappingRender.RenderReadsBack` | crates/connectors/src/field_mapping.rs:43-61 | without prefix clashes each key's path reads its rendered value, and the leaf paths are exactly the keys |
| `FieldMappingRender.RenderNestsAtDots` | crates/connectors/src/field_mapping.rs:43-61 | in the keys' own terms: every dot-free path whose joined text is a key reads that key's rendered value, and every leaf path joined by dots is a key |
| `FieldMappingRender.OneKeyNests` | crates/connectors/src/field_mapping.rs:43-61 | the payload of a single key is the rendered text in objects nested along its segments |
| `FieldMappingRender.PrefixMakesOrderShow` | crates/connectors/src/field_mapping.rs:76-80 | when one key's path leads to another's, two iteration orders give different payloads |
| `FieldMappingRender.OnePayloadIffPrefixFree` | crates/connectors/src/field_mapping.rs:47-83 | all iteration orders give the same payload exactly when no key's path leads to another's |
| `SingleUse.UsedOnceInTime` | crates/server/src/sso.rs:325-330 | in every run no token is used twice, and each use is within its lifetime and yields what was stored for it |
| `SingleUse.TakeSucceedsIff` | crates/server/src/sso.rs:325-330 | taking a token succeeds exactly when it was issued, is younger than its lifetime and was never used |
| `SingleUse.NothingLingers` | crates/server/src/sso.rs:325-330 | an operation keeps exactly the entries younger than the lifetime, besides the token it stores or takes |
| `Sso.SsoService.BeginLogin` | crates/server/src/sso.rs:131-148 | sweeps expired sign-ins and records verifier and nonce under the new state |
| `Sso.SsoService.ConsumeLogin` | crates/server/src/sso.rs:173-179 | sweeps, removes the entry and returns what was recorded for it, if it was still there |
| `Sso.SsoService.IssueHandoffCode` | crates/server/src/sso.rs:295-307 | sweeps expired codes and records the user under the new one |
| `Sso.SsoService.RedeemHandoffCode` | crates/server/src/sso.rs:309-316 | sweeps, removes the code and returns its user, if it was still there |
| `Sso.HandoffRedeemedOnce` | crates/server/src/sso.rs:295-316 | each handoff code is redeemed at most once, less than 60 seconds after issue, for the user it was issued to |
| `Sso.LoginConsumedOnce` | crates/server/src/sso.rs:131-179 | each sign-in state is consumed at most once, less than 600 seconds after issue, yielding its own verifier and nonce |
| `Sso.HandoffRedeemsIff` | crates/server/src/sso.rs:295-316 | a code is redeemed exactly when it was issued less than 60 seconds ago and never redeemed, for its user |
| `Sso.LoginConsumesIff` | crates/server/src/sso.rs:131-179 | a sign-in state is consumed exactly when it was issued less than 600 seconds ago and never consumed, with its own verifier and nonce |

## Left out

- Preview.PreviewQuestions: takes a witness that the run of questions ends, because the source's loop has no bound; `PreviewEndsIff` says exactly when there is one.
- Processes.PollOnce: a failing database statement in the middle of a poll is not modelled.
- FieldMapping.SetDotPath: the mutable cursor is a value with the objects around it; aliasing is not modelled.
- Sso.SsoService.CompleteLogin: the token exchange and signature checks around the nonce comparison are not modelled.
- BuilderEdits.WorkflowBuilder.CommitIdChange: cards are values addressed by position instead of objects with identity.
- BuilderRoundTrip.NumberReadsBack: numbers are the integers JavaScript's numbers can hold; a text with any other integer is rounded when the browser parses it, before the builder sees it, and numbers from 10^21 on are shown in another notation that reads back the same.
- Fractions: a text that is no integer literal reads as not-a-number and is saved as null.
- Captions of the generated second approvals: the source appends a note to administrators, which no operation reads.
- Renaming over whole runs: `RenameKeepsMeaning` is stated for conversations, which by `RunsRefineConversations` and `SomeRunCarriesOn` are what the runs carry on; a run-by-run comparison would rename the stored rows as well.
- Requests for one instance interleaved below the level of an orchestrator call: the row update is unguarded, so the instance guarantees are not meant to hold there.
- A ticket row while its connector is still being waited for (status pending), and what the row stores beyond instance and delivery; the step id on a ticket is kept for stating provenance only.
- Database failures: every statement succeeds.
- Approver resolution, template rendering, connectors and users are inputs that may fail; a requester missing from the user table and an approver that cannot be resolved are one failure.
- One clock per call stands for the application's and the database's.
- Expiry is not checked when a human decides, and publication is not checked when a request starts: the code checks neither.
- Loading a malformed JSON text into the builder, and adding or deleting cards and options: user interface with single-branch state changes.
- Grouping of catalog items, audit paging, uploads, time zones, configuration, user and department administration: easy or single-branch.
- HTTP, templates, SQL text, migrations, mail, password hashing, JWT and JWKS cryptography.
