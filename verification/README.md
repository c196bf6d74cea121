# Workflow engine verification

A Dafny model of a workflow engine that walks a validated graph of Actor, Program and
Child-workflow nodes, and proofs of what its state keeps.

- One Run is one versioned row plus its work orders and an append-only event log. Every handler
  reads the row, changes a copy and commits it against the version it read; the store accepts the
  whole transaction or nothing (`Store.dfy`, `StateStore.dfy`); what that protects against any handler
  is in `Guards.dfy`.
- The store's own validity checks are `CheckExecution` and `CheckState` (`Invariants.dfy`). The
  history of a Run, its links and its call stack are `Inv` (`History.dfy`).
- What a handler writes is a function of the row it read (`Engine.dfy`). What has loops, recursion
  or several outcomes is also given as it runs: the loops on local copies (`AdvanceLoops.dfy`), and a
  class that reads, puts and drives on (`LiveEngine.dfy`), each proved to do exactly what that
  function describes.
- `Runs.dfy` defines the Runs reached by any sequence of steps (`Reach`). The results about all of
  them are in `Runs.dfy`, `Chains.dfy`, `CallDepth.dfy`, `Traces.dfy`, `Budgets.dfy`,
  `Fencing.dfy`, `Boundaries.dfy` and `Witness.dfy`.
- For each call, `Authority.dfy` and `Resumes.dfy` say exactly when it counts, read off the row and
  the caller and without the tests the invariant makes redundant, and `Calls.dfy` and `Resumes.dfy`
  what it leaves in the row and in the log. The contracts of the class in `LiveEngine.dfy` are stated
  in these terms.
- `Workspaces.dfy` puts any number of handlers in flight, with the requests they sent to the host
  and its answers, and shows that every interleaving is a sequence of such steps. `Deliveries.dfy`
  traces every published message back to the host's answer and to the commit that arranged it,
  `Strandings.dfy` says which arranged Judges can still be sent, and `Provenance.dfy` traces every
  claim, judgment, result, context and input back to the call that said it.
- Around the engine: the configuration validator (`Validation.dfy` against the graph-level contract
  in `Catalog.dfy`), the dispatch lifecycle observer with the provenance of what it hands out
  (`Attribution.dfy`) and the exact condition for the outcome it adds (`Results.dfy`), caller binding
  from session logs, the descendant closure behind a "safe" verdict, and the graph editor: renames,
  renaming back, the call guard, what happens to saved positions, and the server's session beside the
  panel's own edits (`Drafts.dfy`, `Panels.dfy`, `Layouts.dfy`, `Undos.dfy`).

`Witness.dfy` also shows that the reachable Runs the results speak about exist: it follows them
through starts, dispatches, claims, Judges, approvals, a host restart and a resume.

Identities the engine mints are natural numbers taken from a counter of the Run, so they are fresh
by construction. Texts are taken after trimming. What the host answers (delivered messages, idle or
missing sessions, Program results, which failures are transient) is a parameter of every operation.

Findings about the code itself, each with its exact condition and a concrete input:

- The store refuses what a handler built in exactly three cases (`Runs.StoreRefusesOnly`), all of
  which can be read off the row before the call.
  - `retryJudgeOnce` and `tryJudgeFailover` replace the Judge's session but leave a recorded followup
    alone; the write is refused when that followup continues the session being replaced
    (`Witness.RetryCanBeRefused`, `Witness.FailoverCanBeRefused`).
  - An exit is recorded under a name of at most 64 characters, but nothing bounds the result and
    return names of a definition. Leaving by a longer name, or popping a caller that leaves by one,
    is refused, although the definition validated and the Run got that far
    (`Witness.LongNameRefused`). A refused Program answer then blocks its row.
  - A route switch records a diagnosis of at most 4000 characters, with the host's failure code in it
    as it came (`Witness.LongCodeRefused`).
- A retry or a failover of a Judge leaves a recorded followup of an older session alone and sends its
  new Judge itself. If any commit, such as a model setting, falls between its put and its own
  freshness test or publish, it gives up, and no later `drive` takes the Judge up, because each stops at
  the followup. The Run then stays in Checking with a Judge nobody was asked to be, until the Manager
  acts. It happens exactly to an unsent Judge under a followup of another session that the next commit
  does not publish (`Strandings.UnsentExactly`, `Strandings.StrandedForGood`,
  `Witness.JudgeCanBeStranded`).
- With `compactBeforeReuse` off, `drive` sets `roleBoundaryPrepared` on its own copy after that copy
  was written, and the later publish writes a row read afresh; a comment there says the flag is saved
  with the dispatch, the code does not save it. The flag is lost exactly when a mapped Role with its
  compaction off is dispatched on an unprepared work order (`Boundaries.FlagLostExactly`,
  `Witness.FlagCanBeLost`).
- The panel's `renameNodeEdit` marks the layout as changed when a stale position already lies at the
  new id, the server's `renameNode` does not. The two sides agree exactly without such an orphan
  (`Drafts.RenameAgrees`), and a loaded draft never has one that matters (`Drafts.AlwaysAgree`,
  `Panels.RunBoth`).
- A return rename moves the return's own saved port, but session and panel mark the layout as changed
  only for a caller's saved edge. If the port moves alone, the layout changes and nothing marks it
  (`Layouts.UnmarkedExactly`, `Layouts.PortMovesUnmarked`).
- The observer forgets the session that first came in, and one that reports again keeps its place: the
  result of a session that has just reported can be the next to go (`Results.UpdateKeepsPlace`).
- `config.childWorkflows?.[name]` is read without asking whether the entry is the table's own, and a
  Child node's callee need not look like an identifier. A name every JavaScript object inherits, such
  as `constructor`, is found, with no returns. A root flow with a table of children beside it may so
  call an undeclared workflow with an empty mapping and be accepted (`Witness.InheritedAccepted`);
  `drive` then throws at that node. In a child flow, even one the root shadows, the same call makes the
  cycle search throw (`Witness.ShadowThrows`), and so does the editor's call guard. Acceptance means
  validity exactly without such calls (`Validation.ValidateAndNormalize`, `CallGuard.CheckChildCallee`);
  the Runs modelled here start from definitions that satisfy the contract.
- A child workflow keyed like the root is accepted unchecked because the root shadows it. Renaming it
  makes it visible: the configuration stays valid exactly if the child then passes the checks of a
  flow under its new key (`Renames.RenameSubflowExactly`, `Witness.UnshadowingBreaks`). Renaming back
  restores a configuration exactly unless such a child already used the new name
  (`RoundTrips.RenameNodeBack` and the three beside it).

## Model

| member | source | states |
|---|---|---|
| StateStores.StateStore.VisitTakenBy | src/state/store.ts:53-61 | finds a work order with a given visit if and only if one exists (the unique index on a Run's visits) |
| StateStores.StateStore.WriteExecution | src/state/store.ts:361-394 | one work order and its events are appended together, or nothing is touched |
| StateStores.StateStore.UpdateRow | src/state/store.ts:333-359 | the whole transaction is written with the version one higher, or every field is as before and the reason is reported |
| Guards.CommitGuards | src/state/store.ts:333-394 | whatever any handler hands in: a commit that succeeds was of an active Run at the version it names, and left frozen facts, origins, the materials of everything that has left and the log so far as they were, gave no visit twice, and wrote only what passes the checks |
| Guards.OneOfTwo | src/state/store.ts:339-355 | of two handlers that read one version at most one commits, whatever they hand in |
| Traces.NothingRewritten | src/state/store.ts:369-394 | over any continuation of a Run: origins, exited materials except the Judge-settled flag, frozen facts and the log prefix never change, and each commit raises the version by one |
| Traces.FinishedStays | src/state/store.ts:344-344 | a completed or terminated Run takes no further step |
| Traces.LeavesOnce | src/state/store.ts:386-393 | in every reachable Run each work order was entered exactly once and left exactly once if and only if it has left |
| Runs.StartInv | src/engine/engine.ts:370-391 | starting on a definition that satisfies the graph-level contract always creates a row, and the invariant of the whole Run holds in it |
| Runs.ReachInv | src/state/invariants.ts:25-225 | every Run reached by any sequence of handler steps satisfies all store checks, the bounds on recorded names and diagnoses included, and the history invariant |
| Runs.AlwaysLoadable | src/state/store.ts:201-215 | a reachable row always passes the checks made when it is read |
| Runs.EveryStep | src/state/invariants.ts:25-225 | from a row satisfying the invariant a proposed step is written if and only if it is not one of the refused, and what is written satisfies the invariant again |
| Runs.StoreRefusesOnly | src/state/store.ts:361-394 | from a reachable Run a proposal is refused if and only if it replaces a Judge a followup continues, would record a name of more than 64 characters, or a diagnosis of more than 4000 |
| Runs.AcceptNeverStuck | src/engine/engine.ts:787-852 | an ACCEPT in a reachable Run always has its edge and its callers, leads to a running or completed Run, and is written if and only if no name to be recorded exceeds 64 characters |
| Runs.ProgramNeverStuck | src/engine/engine.ts:1655-1657 | a current Program invocation with a known result never proposes a block, and is written if and only if no name to be recorded exceeds 64 characters |
| Witness.RetryCanBeRefused | src/engine/engine.ts:719-724 | a concrete reachable Run in which the automatic Judge retry is refused by the store |
| Witness.FailoverCanBeRefused | src/engine/engine.ts:1192-1228 | a concrete reachable Run in which the Judge failover is refused by the store |
| Witness.LongNameRefused | src/state/invariants.ts:79-85 | a valid definition with a 65-letter result, and a reachable Run in which its ACCEPT is refused |
| Witness.LongCodeRefused | src/state/invariants.ts:35-38 | a concrete reachable Run in which a failover is refused for its 4000-character failure code |
| Witness.FlagCanBeLost | src/engine/engine.ts:512-564 | a concrete reachable Run in which the handler holds the boundary prepared and the row it published says otherwise |
| Recovery.RetryExactly | src/engine/engine.ts:719-724 | a Judge retry is written, and keeps the invariant, if and only if no followup continues the current Judge |
| Recovery.FailoverJudgeExactly | src/engine/engine.ts:1192-1228 | a Judge failover is written, and keeps the invariant, if and only if no followup continues the current Judge and the diagnosis is at most 4000 characters |
| Recovery.FailoverActorExactly | src/state/invariants.ts:35-38 | an Actor failover is written, and keeps the invariant, if and only if its diagnosis is at most 4000 characters |
| Advancing.CallerCanReturn | src/engine/engine.ts:812-819 | while a return travels down the stack the next caller is a waiting Child that maps the returned name, so the corrupt-return error is unreachable |
| Advancing.Popped | src/engine/engine.ts:811-832 | popping one caller under a name of at most 64 characters is a valid write after which the caller has left along its own mapping and the rest of the stack still waits |
| Unwinding.Unwinds | src/engine/engine.ts:811-832 | unwinding through any number of callers ends, is never stuck, and every pop can be written when no caller leaves under a longer name |
| Unwinding.LongCallerPopped | src/state/invariants.ts:79-85 | where a caller on the way would leave under a longer name, the unwinding pops such a caller, whose row no store check admits |
| Unwinding.MaxVisitIsLargest | src/engine/engine.ts:827-827 | the successor's visit is computed from the largest visit left, which is the first one when callers were entered earlier |
| Transitions.AdvanceKeeps | src/engine/engine.ts:787-852 | one advance from a row satisfying the invariant, along names of at most 64 characters, is proposed, written, keeps the invariant and never blocks |
| Transitions.AdvanceRefused | src/state/store.ts:361-394 | an advance that would record a longer name, its own or a popped caller's, is refused |
| Outcomes.AcceptKeeps | src/engine/engine.ts:1002-1011 | ACCEPT leaves the Actor along the target of its own claimed result; it is written, and keeps the invariant, if and only if no name to be recorded is too long |
| Outcomes.ProgramKnownKeeps | src/engine/engine.ts:1643-1657 | a Program result that is still current advances the Run; it is written, and keeps the invariant, if and only if no name to be recorded is too long |
| Outcomes.ResolveProgramKeeps | src/engine/engine.ts:1668-1686 | a Manager resolution of a Program advances the Run; it is written, and keeps the invariant, if and only if no name to be recorded is too long |
| Entering.EnterChildKeeps | src/engine/engine.ts:461-476 | in a Run of a definition satisfying the graph-level contract (the validator also accepts a root flow calling an inherited name, see the findings) entering a child always commits with its frame and first work order; the branch for a callee missing from the snapshot is dead |
| Handlers.SubmitClaimKeeps | src/engine/engine.ts:924-941 | whatever a claim proposes satisfies every store check and keeps the invariant (what it records is `Calls.ClaimLeaves`, when it counts `Authority.ClaimExactly`) |
| Handlers.RejectKeeps | src/engine/engine.ts:962-985 | REJECT returns the claim to its Actor with the judgment as history and keeps the invariant |
| Handlers.NeedContextKeeps | src/engine/engine.ts:987-999 | NEED_CONTEXT blocks, keeps claim and Judge, and keeps the invariant |
| Handlers.ArrangeActorKeeps | src/engine/engine.ts:484-509 | arranging an Actor dispatch keeps the invariant, the wait for the predecessor's Judge included |
| Handlers.ArrangeJudgeKeeps | src/engine/engine.ts:570-581 | arranging a Judge, new or continued, keeps the invariant |
| Handlers.PublishActorKeeps | src/engine/engine.ts:551-562 | publishing the session and message of a dispatch keeps the invariant |
| Handlers.PublishJudgeKeeps | src/engine/engine.ts:587-591 | publishing a Judge's message keeps the invariant |
| Handlers.FailoverActorKeeps | src/engine/engine.ts:1112-1161 | switching a failed Actor to its next route, with a diagnosis that fits, keeps the invariant and the routing tables consistent |
| Handlers.BlockRowKeeps | src/engine/engine.ts:704-707 | any block of a running row keeps the invariant whatever the handler changed before |
| Recovery.RespawnJudgeKeeps | src/engine/engine.ts:1543-1573 | a Judge respawn keeps the invariant |
| Recovery.ArrangeProgramKeeps | src/engine/engine.ts:1602-1624 | a Program run or re-run is arranged under a new invocation and keeps the invariant |
| Recovery.SetRoleModelKeeps | src/engine/engine.ts:1736-1746 | an explicit model setting opens a new round of routes and keeps the invariant |
| Recovery.ResetKeeps | src/engine/engine.ts:1756-1768 | terminating a Run keeps the invariant |
| Recovery.ReconcileKeeps | src/engine/engine.ts:1325-1334 | marking a Run after a host restart keeps the invariant |
| Transfers.ResumeAtActorKeeps | src/engine/engine.ts:1456-1530 | resuming at the Actor, with the predecessor's Judge closed in the same transaction if needed, keeps the invariant |
| Transfers.ResumeAtJudgeKeeps | src/engine/engine.ts:1401-1530 | resuming at the Judge, continued or fresh, keeps the invariant |
| Transfers.ResumeAtChildKeeps | src/engine/engine.ts:1371-1385 | resuming an unentered Child caller keeps the invariant |
| Transfers.SettlePredecessorKeeps | src/engine/engine.ts:1029-1043 | closing the predecessor's Judge touches nothing else and keeps the invariant |
| AdvanceLoops.FindTransferJudge | src/engine/engine.ts:899-909 | the loop over recorded returns finds what the recursive walk finds |
| AdvanceLoops.FallbackClash | src/engine/engine.ts:428-437 | reports a clashing role if and only if some fallback repeats its effective primary route |
| AdvanceLoops.UnwindReturns | src/engine/engine.ts:807-832 | the unwinding loop pops exactly the callers of the recursive unwinding and keeps the largest visit |
| AdvanceLoops.ReturnChanges | src/engine/engine.ts:848-849 | every work order left in the advance names the one successor |
| AdvanceLoops.AdvanceKnownResult | src/engine/engine.ts:787-852 | builds exactly the row, exits, returns and successor, or the end of the Run, that the specification describes |
| LiveEngine.StartRun | src/engine/engine.ts:370-391 | starts if and only if the input is within bounds and no fallback clashes, and then in a row that begins a Run |
| LiveEngine.WorkflowEngine.Put | src/state/store.ts:333-359 | commits a handler's candidate against the version just read and keeps the invariant |
| LiveEngine.WorkflowEngine.DispatchFault | src/engine/engine.ts:658-663 | blocks only the row at the version the failing handler last committed, and leaves its place, stack, materials and all other rows as they were |
| LiveEngine.WorkflowEngine.Drive | src/engine/engine.ts:438-581 | makes the arrangements the row needs and no other step, recursing through nested child entries, and ends in a row with nothing left to arrange |
| LiveEngine.WorkflowEngine.HandleTurnEnded | src/engine/engine.ts:1024-1099 | on the rows before and after: waiting or somebody else's turn leaves the row, an unsafe one blocks it; a safe Actor turn settles exactly its dispatch, or, without a claim, switches exactly when a next route and an eligible failure allow it and blocks otherwise; a silent Judge is failed over, retried once or blocks, exactly when stated; then it drives |
| LiveEngine.WorkflowEngine.ProgramReturned | src/engine/engine.ts:1640-1667 | counts exactly for the invocation under way in the row it was asked from: a trusted result is recorded and driven on, an error or an untrusted one blocks, and one that cannot leave under its name blocks; any other answer changes nothing |
| LiveEngine.WorkflowEngine.HandleResume | src/engine/engine.ts:1335-1542 | on the rows before and after: taken exactly when the Manager may resume and the branch is open; Child, Judge or Actor as `auto` or the choice decides, then drives; with any token but the current one changes nothing |
| AdvanceLoops.RecoverPredecessor | src/engine/engine.ts:1347-1370 | decides whether an unsettled transfer forbids the resume and which Judge it closes |
| AdvanceLoops.FinishProgram | src/engine/engine.ts:1640-1657 | settles only the invocation still current: a result is recorded and advanced, anything else blocks |
| Fencing.WrongToken | src/engine/engine.ts:1335-1346 | a tool call under any token but the current one proposes nothing |
| Fencing.RevokedForGood | src/engine/engine.ts:1335-1346 | a token a resume, a re-run, an exit or the end of the Run revoked is refused by every tool call for the rest of the Run |
| Fencing.LateForGood | src/engine/engine.ts:641-646 | after any further commit whatever still holds the earlier version publishes, blocks and answers nothing, ever |
| Fencing.BlockStaysPut | src/engine/engine.ts:704-707 | a block never moves the current work order, its token and materials, the stack, routes or sessions, and no other row |
| Fencing.ContinuesPresentClaim | src/engine/engine.ts:1406-1452 | a session a resume continues is that of a Judge of the present claim, on the route in force, and still there |
| Boundaries.FlagLostExactly | src/engine/engine.ts:512-564 | after a dispatch the row says of its boundary what the handler held, unless and only unless a mapped Role with compaction off was reused unprepared |
| LiveEngine.DriveLeavesNothing | src/engine/engine.ts:438-581 | one `drive` goes by its own arrangements alone, and wherever it stops nothing is left to arrange: no Actor, no child it could enter, no Judge of a closed claim |
| Authority.ClaimExactly | src/engine/engine.ts:924-941 | in a reachable Run a claim counts if and only if it comes from the dispatched session, whose log shows the dispatch's message, while that dispatch works, for a declared result and with a handoff within bounds; no other test of the handler matters |
| Authority.VerdictExactly | src/engine/engine.ts:948-960 | a verdict counts if and only if it comes from the session of the arranged Judge, whose log shows that Judge's message, under the current token of a running row in Checking, with a reason within bounds; that it judges the present claim and input for the first time follows |
| Authority.BlockExactly | src/engine/engine.ts:1303-1324 | a block counts if and only if it comes from the working Actor, or under the token from the Manager for a node that is not its own |
| Authority.RespawnExactly | src/engine/engine.ts:1543-1573 | a Judge respawn counts if and only if the Manager asks under the token for a checked claim whose Actor's turn is over |
| Authority.ProgramRunExactly | src/engine/engine.ts:1602-1624 | a Program runs if and only if the Manager asks under the token at a Program node where none is under way |
| Authority.ResolveExactly | src/engine/engine.ts:1668-1686 | a resolution counts if and only if the Manager decides PASS or FAIL under the token of a blocked Program that was run |
| Authority.ModelExactly | src/engine/engine.ts:1687-1746 | a model setting counts if and only if the Manager gives a full route to a route key, not what is in force already and not under a working Actor |
| Authority.EligibleExactly | src/engine/failover.ts:28-90 | a failure may switch a model exactly as the four kinds say: a server status or 429, or without a status one of three codes, and never a quota, credential or request code |
| Authority.DiagnosisNames | src/engine/failover.ts:56-80 | the diagnosis a switch records opens with the kind of failure and its code as it came |
| Authority.ActorTurnExactly | src/engine/engine.ts:1062-1080 | the Actor's own turn closes a claim's dispatch, or switches its role, exactly under the stated conditions |
| Authority.JudgeTurnExactly | src/engine/engine.ts:1081-1099 | a Judge's turn without a verdict is failed over or retried exactly under the stated conditions |
| Authority.PredecessorExactly | src/engine/engine.ts:1029-1043 | the Judge's turn that is closed late is exactly that of the Actor at the bottom of the returns behind the current work order |
| Authority.AnswerExactly | src/engine/engine.ts:1640-1650 | a Program's answer counts if and only if its invocation is under way in the row it was asked from; then it always leads somewhere |
| Calls.ClaimLeaves | src/engine/engine.ts:924-941 | the claim is the submitted result and handoff, letter for letter, of the current dispatch; the row otherwise stays, and the log says so |
| Calls.VerdictLeaves | src/engine/engine.ts:962-999 | the judgment is the verdict and reason of this call by this Judge on this claim; REJECT gives the claim back as history for the next input, NEED_CONTEXT keeps claim and Judge and blocks |
| Calls.AcceptLeaves | src/engine/engine.ts:1002-1011 | ACCEPT lets the work order leave with its claim and that judgment, and ends the sessions of a role that lives only in its node |
| Calls.AnswerLeaves | src/engine/engine.ts:1643-1657 | a trusted result is on its invocation and the work order leaves, an error is on it and blocks, anything else only blocks |
| Calls.ResolveLeaves | src/engine/engine.ts:1668-1686 | the Manager's result stands with the handoff there was, or the input, and the work order leaves |
| Calls.RespawnLeaves | src/engine/engine.ts:1543-1573 | the new Judge has an identity and session never used before, the route in force, the same claim and the next input; the rest stays |
| Calls.ProgramRunLeaves | src/engine/engine.ts:1602-1624 | the Program is under a new invocation, and a blocked Run goes on under a new token |
| Calls.ModelLeaves | src/engine/engine.ts:1736-1746 | the role resolves to exactly that route in a new round, its session is given up and no other, and claim, Judge and dispatch stay |
| Calls.EnterLeaves | src/engine/engine.ts:461-476 | the caller waits for a flow opened at its start, with its own input, the next visit and a frame of its own |
| Calls.ExitOpens | src/engine/engine.ts:833-848 | an advance ends the Run or goes on with a ready work order under an identity and token nobody held, whose boundary is still to be prepared exactly if it uses an ordinary Role's session again |
| Calls.DispatchLeaves | src/engine/engine.ts:484-509 | a dispatch is new, addressed to the Manager or the session its role has, and the one it replaces is kept exactly if it was sent or a returned claim came from it |
| Calls.JudgeArrangedLeaves | src/engine/engine.ts:570-581 | a Judge is new, of the present claim and input, on the route in force, and continues a session exactly if a resume recorded it |
| Calls.ActorSentLeaves | src/engine/engine.ts:551-562 | the dispatch has the session and message of the answer, and an ordinary role keeps that session |
| Calls.ActorSwitchedLeaves | src/engine/engine.ts:1112-1161 | the role goes on on the next route of its round, its session is given up, and its node is ready for the next input |
| Calls.JudgeSwitchedLeaves | src/engine/engine.ts:1192-1228 | another Judge is asked about the same claim and input on the next route, and the rest stays |
| Calls.JudgeRetriedLeaves | src/engine/engine.ts:719-724 | another Judge is asked about the same claim and input on the same route, marked as the one retry |
| Calls.PredecessorClosedLeaves | src/engine/engine.ts:1029-1043 | only the Judge of the Actor behind the current work order is marked as over |
| Resumes.ResumeExactly | src/engine/engine.ts:1335-1382 | under `auto` every allowed resume of an Actor is taken: at the Judge if and only if a checked claim's Actor has finished, at the Actor otherwise; explicitly the Judge can be had whenever a claim is checked and the Actor always |
| Resumes.AutoResume | src/engine/engine.ts:1381-1530 | a written `auto` resume with a judgment missing keeps claim and phase and puts a Judge of that claim in place for the next input; any other takes the claim back as history and is Ready; both record the given context under a token nobody held |
| Resumes.FollowupExactly | src/engine/engine.ts:1406-1452 | a Judge resume goes on in the session of the Judge last asked about the claim if and only if that Judge just answered with a question or the host restarted, its route is in force and its session is there |
| Resumes.JudgeResumeLeaves | src/engine/engine.ts:1401-1530 | claim, judgment and history stay, and the Judge in place is new, on the continued session or one never used before |
| Resumes.ActorResumeLeaves | src/engine/engine.ts:1456-1530 | the claim is history with its judgment kept exactly if that was about it, a missing role session is given up, and the boundary is prepared exactly when stated |
| Provenance.WordsWereSaid | src/engine/engine.ts:924-1011 | under any interleaving, every claim (present or returned), judgment, Program result and context any work order ever holds was said by one written call of an earlier row on that work order: the claim word for word by the dispatched Actor, the judgment by the arranged Judge under the token, the context by the Manager |
| Provenance.ExitsWereAccepted | src/engine/engine.ts:948-1011 | under any interleaving, whatever Actor has left, its own arranged Judge gave the ACCEPT in one call of an earlier row |
| Provenance.InputsWereSaid | src/engine/engine.ts:820-848 | under any interleaving, a successor's input is letter for letter the handoff the Actor at the bottom of the returns submitted in one call, or its Program was answered or resolved with |
| CallDepth.StackBounded | src/catalog/validate.ts:237-239 | in every reachable Run no workflow is on the call stack twice and the depth is at most one more than the number of child workflows |
| CallDepth.NeverReentered | src/catalog/validate.ts:276-300 | a repeated workflow on the stack would be a cycle of the child call graph |
| CallDepth.DriveRecursionEnds | src/engine/engine.ts:461-476 | each nested child entry strictly uses up the room left on the stack |
| Chains.VisitsExact | src/state/store.ts:53-61 | the visits of a reachable Run are exactly 1..n, each once, and an active Run works on the last |
| Chains.ChainCarries | src/engine/engine.ts:820-829 | along recorded child returns handoff and successor never change and visits strictly grow |
| Chains.OneChain | src/engine/engine.ts:847-849 | all work orders that name one successor lie on the single chain behind its direct predecessor |
| Chains.HandoffConserved | src/engine/engine.ts:820-848 | a successor's input is letter for letter the confirmed handoff of the work order that ended, through any number of nested returns, and every caller popped recorded it |
| Chains.InputBounded | src/types.ts:679-690 | every work order after the root's first has a non-empty input of at most 8000 characters |
| Chains.AcceptanceGate | src/engine/engine.ts:1002-1011 | an exited Actor carries an ACCEPT aligned with its claim, input version and Judge, and left along the frozen target of its own result (who gave it is `Provenance.ExitsWereAccepted`) |
| Chains.BusinessReturn | src/engine/engine.ts:833-840 | a completed Run returns a name its root declares, decided at its terminal work order, and nothing is left open |
| Chains.WalkNeverRepeats | src/engine/engine.ts:899-909 | the walk to a transfer's Judge never meets a work order twice, so its `seen` set never matters |
| Chains.TransferExact | src/engine/engine.ts:899-909 | the walk from a successor's predecessor finds exactly the Actor whose ACCEPT made that successor, and nothing after a Program |
| Chains.TransferAlwaysAccepted | src/engine/engine.ts:1353-1366 | whenever a transfer waits in a reachable Run, the resume's acceptance test on it succeeds |
| Chains.PlacedExactly | src/engine/engine.ts:461-848 | every work order is where an edge its predecessor took leads, or opens a flow a caller entered, with the caller's input, or is the first of the Run at the root's start |
| Chains.JudgeAfterActor | src/engine/engine.ts:566-581 | a Judge exists only where the dispatch it judges is settled, for the claim of that dispatch |
| Chains.SuccessorWaits | src/engine/engine.ts:443-451 | a successor of an Actor is dispatched or enters its child only after that Actor's Judge is settled |
| Budgets.SwitchedModel | src/roles/roles.ts:90-130 | after an automatic switch the role resolves to exactly the announced route |
| Budgets.StartsOnPrimary | src/roles/roles.ts:90-130 | a Run starts with every role on its configured route, else on the one frozen from the Manager, else on none |
| Budgets.SettingHolds | src/roles/roles.ts:123-126 | after a written setting the role resolves to exactly that route over any continuation in which it is neither switched nor set again |
| Budgets.RouteStays | src/roles/roles.ts:90-130 | no other step ever changes what a role resolves to |
| Budgets.ClashNeverSeen | src/engine/engine.ts:1145-1146 | the check for a fallback equal to the primary never fires in a reachable Run |
| Budgets.SwitchBudget | src/engine/engine.ts:1112-1161 | between two explicit model settings a role is switched at most as often as its stage allows, never more than twice |
| Budgets.RetriedOnce | src/engine/engine.ts:1088-1093 | over any continuation of a Run a Judge is retried at most once per checking round |
| Deliveries.PublishedWhereArranged | src/engine/engine.ts:551-562 | a dispatch or Judge gains a message id, or a dispatch another session, only by a publish carrying its own identity and the row's version; a new dispatch appears only by `drive`'s own arrangement, a new Judge only by a step that arranges one, each under an id never used before; both, and a new work order, start without a message, and while a Judge's message is out the recorded resolution stays |
| Deliveries.DispatchMessagesWereAnswered | src/engine/engine.ts:484-564 | under any interleaving, a message id on a dispatch of any row is one the host returned for that dispatch of that work order, to a request made from a row of the history, and an earlier commit had arranged that dispatch |
| Deliveries.JudgeMessagesWereAnswered | src/engine/engine.ts:566-591 | the same of a Judge's message, whether `drive`, a retry or a failover sent it and whatever was committed between its arrangement and the request; the answer names the session of that Judge |
| Strandings.UnsentExactly | src/engine/engine.ts:566-583 | in a reachable running row in Checking whose Judge is unsent, a `drive` takes the Judge up if and only if the row carries no followup of another session |
| Strandings.UnsentCanBeSent | src/engine/engine.ts:566-591 | from any row of any behaviour whose Judge is unsent with no followup of another session on record, whatever was committed since, any handler can ask for it, be answered and publish the answer |
| Strandings.ArrangerCanSend | src/engine/engine.ts:731-739 | the handler whose own commit arranged a Judge (`drive`, a retry, a failover) can be answered and publish, whatever the row carries, if no other commit comes first |
| Strandings.StrandedForGood | src/engine/engine.ts:582-583 | under any interleaving, an unsent Judge under a followup of another session that the very next commit does not publish is never sent: in every later row that has it, its message is out |
| Witness.JudgeCanBeStranded | src/engine/engine.ts:720-735 | a concrete reachable Run whose Judge retry arranges such a Judge, and a model setting that then comes first |
| Deliveries.WasArranged | src/engine/engine.ts:484-591 | whatever dispatch or Judge a row of the history shows, an earlier commit put exactly that one there |
| Workspaces.NoLostUpdate | src/state/store.ts:339-355 | under any interleaving a commit that succeeds is one atomic step of the row its handler read, and its unique successor |
| Workspaces.Serializable | src/state/store.ts:333-359 | under any interleaving rows follow one another by single handler steps and a version names one row |
| Workspaces.OneActiveRun | src/state/store.ts:51-51 | a workspace has at most one active Run, the newest |
| Workspaces.EveryRowReachable | src/state/store.ts:333-359 | every row of an interleaved behaviour is the row of some Run taken one step at a time |
| Validation.Contract | src/catalog/validate.ts:49-303 | no problem can be reported and no flow calls a name the table only inherits, if and only if the configuration satisfies the graph-level contract |
| Validation.SearchNodes | src/catalog/validate.ts:243-260 | the breadth-first search finds exactly the nodes some path from the start node leads to |
| Validation.SearchReturns | src/catalog/validate.ts:261-272 | collects exactly the returns some reachable node leads to |
| Validation.CycleSearch.Visit | src/catalog/validate.ts:286-299 | visits a workflow once, ranks it above everything it calls, reports a workflow only if it lies on a closed walk, and throws only at a called name every object inherits |
| Validation.FindCycles | src/catalog/validate.ts:276-300 | the depth-first search throws if and only if a child workflow calls an undeclared name every object inherits; otherwise it reports something if and only if the child call graph has a cycle |
| Validation.CheckResults | src/catalog/validate.ts:345-368 | reports exactly the result faults of a node |
| Validation.CheckNode | src/catalog/validate.ts:196-241 | reports exactly the faults of one node; a callee that is an inherited member of the table counts as found, without returns |
| Validation.CheckFlow | src/catalog/validate.ts:164-273 | reports exactly the faults of one flow, reachability included, or throws, exactly at a missing start node named like an inherited member |
| Validation.ValidateAndNormalize | src/catalog/validate.ts:49-303 | accepts, with a root flow that calls no inherited name, if and only if the configuration is valid and no child calls an inherited name; throws something else exactly at the two inherited lookups; otherwise every reported problem is real and every real one but further cycle entries is reported |
| Validation.Exactly | src/catalog/validate.ts:225-226 | the condition under which acceptance means validity, for every configuration |
| Witness.InheritedAccepted | src/catalog/validate.ts:225-226 | a configuration nothing is reported for whose root calls the undeclared workflow `constructor` |
| Witness.ShadowThrows | src/catalog/validate.ts:296-296 | a valid configuration the validator throws on, because a shadowed child calls `constructor` |
| Lifecycle.AlwaysBounded | src/plugin/dispatch-lifecycle.ts:112-115 | after any reports the maps hold at most 512, 512, 64 and 64 entries and every registration is well attributed |
| Attribution.CandidateTraced | src/plugin/dispatch-lifecycle.ts:197-287 | over any reports: a candidate bears the number of its session's last publication; a known epoch is that of the last start before it; the end was reported for that session, after it or within the time to live before; the outcome settled an observation begun while that epoch was in force |
| Results.OutcomeExactly | src/plugin/dispatch-lifecycle.ts:176-181 | over any reports: a candidate carries an outcome if and only if the session's last recorded result settled an observation begun in the candidate's own known epoch and is among the 64 sessions remembered, and then exactly that result |
| Results.OutcomeDelivered | src/plugin/dispatch-lifecycle.ts:207-217 | while no more than 64 sessions ever had a result, the last one of the epoch is always delivered |
| Results.EpochKnown | src/plugin/dispatch-lifecycle.ts:197-201 | while no more than 512 sessions ever started, the epoch of every session is that of its last start |
| Results.UpdateKeepsPlace | src/plugin/dispatch-lifecycle.ts:112-115 | a session that reports again is still the first to be forgotten |
| Lifecycle.SilentAfterDispose | src/plugin/dispatch-lifecycle.ts:300-306 | nothing is produced after dispose whatever is still reported |
| Lifecycle.OldReleaseIsHarmless | src/plugin/dispatch-lifecycle.ts:288-292 | releasing a replaced reference drops nothing and it can no longer be consumed |
| Lifecycle.EndBeforeOrAfterPublish | src/plugin/dispatch-lifecycle.ts:232-267 | an unexpired end edge gives the same candidate before and after the publication |
| Lifecycle.ResultCommutes | src/plugin/dispatch-lifecycle.ts:207-217 | when a result is recorded makes no difference to registrations and ends |
| Lifecycle.DispatchLifecycle.NoteStart | src/plugin/dispatch-lifecycle.ts:197-201 | records the session's epoch within the bound |
| Lifecycle.DispatchLifecycle.Record | src/plugin/dispatch-lifecycle.ts:207-217 | records an outcome under the epoch held when its observation began |
| Lifecycle.DispatchLifecycle.SweepBuffer | src/plugin/dispatch-lifecycle.ts:168-177 | drops exactly the expired ends and then the oldest above the limit |
| Lifecycle.DispatchLifecycle.NoteEnd | src/plugin/dispatch-lifecycle.ts:232-251 | attributes an end to the registration of its epoch, buffers it, or ignores it |
| Lifecycle.DispatchLifecycle.PublishFact | src/plugin/dispatch-lifecycle.ts:252-267 | registers a dispatch and claims a buffered end of the same known epoch |
| Lifecycle.DispatchLifecycle.Consume | src/plugin/dispatch-lifecycle.ts:268-287 | forms the candidate of the current registration, or none |
| Lifecycle.DispatchLifecycle.ReleaseRef | src/plugin/dispatch-lifecycle.ts:288-292 | drops the registration only if the reference names it |
| Lifecycle.DispatchLifecycle.InvalidateSession | src/plugin/dispatch-lifecycle.ts:293-299 | drops a session's registration, or only that of the given dispatch |
| TurnBind.LocateCall | src/plugin/turnbind.ts:77-124 | finds the turn of a call natively or through the root call that provably dispatched it, and fails closed otherwise |
| TurnBind.LocatedExactly | src/plugin/turnbind.ts:77-124 | a call is placed by the first event of its own id, or, if it has none, by the first event of a root call the log shows to have dispatched it, and in no other case |
| TurnBind.TurnUserMessageIds | src/plugin/turnbind.ts:168-189 | the backward scan collects the turn's messages or fails closed |
| TurnBind.SessionUserMessageIds | src/plugin/turnbind.ts:131-141 | collects the session's messages up to the call |
| TurnBind.CallerOf | src/plugin/turnbind.ts:50-74 | a caller has both sets or none |
| TurnBind.StrictExact | src/plugin/turnbind.ts:168-189 | the strict set exists exactly when the turn opened with no other boundary in between, and is exactly the messages in between |
| TurnBind.LineageExact | src/plugin/turnbind.ts:131-141 | the lineage is exactly the ids of the messages logged up to the call |
| TurnBind.StrictWithinLineage | src/plugin/turnbind.ts:168-189 | the turn's messages always belong to the session's lineage |
| TurnBind.LineageGrows | src/plugin/turnbind.ts:131-141 | a later call sees at least what an earlier one saw |
| TurnBind.LaterEventsIrrelevant | src/plugin/turnbind.ts:131-189 | events appended later never change what an earlier call may claim |
| TurnBind.NeverBindsEarlier | src/engine/engine.ts:111-113 | a caller whose log did not yet hold the dispatch's message never binds to that dispatch |
| Participants.LiveDescendantIds | src/plugin/participants.ts:41-60 | computes exactly the seeds and everything below them through live parent links |
| Participants.RequiredIds | src/plugin/participants.ts:376-390 | collects exactly the session, its running children, exact references below it and its live closure |
| Participants.InspectAgents | src/plugin/participants.ts:399-410 | fails exactly when a required agent is unknown, marked unsafe, or busy without being a child to wait for, and otherwise keeps exactly the quiet ones |
| Participants.StillSettled | src/plugin/participants.ts:422-427 | succeeds exactly when every agent seen quiet is the same instance, still quiet, not marked unsafe, with terminal jobs only |
| Participants.LooksMeanQuiet | src/plugin/participants.ts:413-428 | two successful looks with everybody idle leave every live agent of the final closure quiet, with terminal jobs only, and none of them marked unsafe by the second look |
| Participants.SafeToInspect | src/plugin/participants.ts:365-430 | safe, waiting or not safe exactly as the entry and the two looks decide, each with the references and tombstones of its own moment, and safe only if the whole final live closure is quiet |
| Isomorphism.RelabelledValid | src/catalog/validate.ts:164-300 | a consistently renamed valid configuration is valid: every check, reachability and acyclicity carry over |
| Isomorphism.ReachableMaps | src/catalog/validate.ts:243-260 | paths of a flow map to paths of the renamed flow |
| Isomorphism.AcyclicStays | src/catalog/validate.ts:276-300 | a renamed acyclic call graph is acyclic |
| Renames.RenameNodeValid | src/editor/draft.ts:862-905 | renaming a node of a valid configuration leaves it valid |
| Renames.RenameReturnValid | src/editor/draft.ts:1061-1115 | renaming a flow return, with all callers following, leaves a valid configuration valid |
| Renames.RenameSubflowExactly | src/editor/draft.ts:1491-1521 | renaming a child workflow leaves a valid configuration valid if and only if the root does not shadow it or it passes the checks of a flow under its new key |
| Renames.RenameRoleValid | src/editor/draft.ts:466-488 | renaming a role leaves a valid configuration valid |
| RoundTrips.RenameNodeBack | src/editor/draft.ts:862-905 | renaming a node back is accepted and restores the configuration, exactly unless the flow is shadowed and named the new id somewhere or the old id is no identifier |
| RoundTrips.RenameReturnBack | src/editor/draft.ts:1061-1115 | renaming a return back is accepted and restores the configuration, exactly unless a shadowed flow already used the new name or the old one is no identifier |
| RoundTrips.RenameSubflowBack | src/editor/draft.ts:1491-1521 | renaming a child workflow back is accepted and restores the configuration, exactly unless it was keyed like the root or a shadowed flow already called the new key |
| RoundTrips.RenameRoleBack | src/editor/draft.ts:466-488 | renaming a role back restores the configuration exactly unless a shadowed flow already has an Actor of the new name |
| Witness.UnshadowingBreaks | src/editor/draft.ts:1491-1521 | a concrete valid configuration that renaming its shadowed child makes invalid |
| CallGuard.ChildReaches | src/editor/draft.ts:1432-1443 | finds the target only if calls starting there can come to it, denies it if and only if they come neither to it nor to a name every object inherits, and throws only at such a name |
| CallGuard.CheckChildCallee | src/editor/draft.ts:1450-1464 | accepts a callee if and only if the lookup finds it, it is not the caller, and calls from it come neither back nor to an inherited name; unless the root goes by such a name, an accepted callee is declared |
| CallGuard.AcceptedCallAcyclic | src/editor/draft.ts:1576-1633 | an accepted new or redirected call keeps an acyclic call graph acyclic |
| CallGuard.RefusedCallCycles | src/editor/draft.ts:1460-1462 | a call refused because it reaches back would have closed a cycle |
| Drafts.UndoRestores | src/editor/draft.ts:126-164 | undo after an accepted edit restores configuration, layout and both dirty flags, and redo gives the edit back |
| Drafts.HistoryBounded | src/editor/draft.ts:136-140 | past and future together never hold more than 50 snapshots |
| Undos.FiftyBack | src/editor/draft.ts:126-164 | after any accepted edits, k undos give back exactly the draft before the last k of them for every k up to 50, and the past holds exactly as many drafts as there were edits, up to 50 |
| Drafts.RenameAgrees | web-client/src/edits.js:646-694 | after a node rename session and panel agree if and only if no orphan position lay at the new id |
| Layouts.NodeLayoutMoves | src/editor/draft.ts:894-902 | after a node rename every saved position and edge lies where the renamed node is, all others where they were, in that flow only |
| Layouts.NodeLayoutBack | src/editor/draft.ts:894-902 | renaming a node back restores the layout if and only if nothing lay at the new id |
| Layouts.ReturnLayoutMoves | src/editor/draft.ts:1069-1110 | after a return rename the saved port and the edges of all callers lie under the new name, all others where they were |
| Layouts.PortLayoutBack | src/editor/draft.ts:1069-1073 | renaming a return back restores the saved ports if and only if none lay under the new name |
| Layouts.EdgesFollowBack | src/editor/draft.ts:1094-1110 | renaming a return back restores the callers' saved edges if and only if no caller had one saved under the new name |
| Layouts.NodeDirtyExactly | src/editor/draft.ts:894-902 | a node rename marks the layout exactly if it changes it |
| Layouts.UnmarkedExactly | src/editor/draft.ts:1069-1073 | where no caller's saved edge moves, a return rename leaves the layout unmarked, and yet changes it exactly if the return's own saved port moves |
| Layouts.PortMovesUnmarked | src/editor/draft.ts:1069-1073 | a concrete layout that a return rename changes and does not mark |
| Drafts.AlwaysAgree | web-client/src/edits.js:105-136 | from a draft whose layout covers its nodes, session and panel agree after any node renames, return renames, undos and redos |
| Panels.RenameNodeEdit | web-client/src/edits.js:646-694 | the panel's own loops over a clone of draft and positions give the renamed node, its targets, position and edges, with history, or the same state |
| Panels.RenameFlowReturnEdit | web-client/src/edits.js:856-906 | the panel's own loops over all caller flows give the renamed return, its targets, port, mappings and saved edges, with history, or the same state |
| Panels.RunBoth | web-client/src/edits.js:646-906 | the server's session and the panel, run side by side on the same edits, hold the same configuration, layout, flags and history |
| Drafts.DraftsStayValid | src/editor/draft.ts:862-1115 | every draft such a session passes through is as valid as the one it was loaded with |
| Drafts.RetargetNodes | src/editor/draft.ts:878-893 | every target of a flow that named the old one names the new one, and no other changes |
| Drafts.DraftSession.RekeyAllCallers | src/editor/draft.ts:1094-1110 | in every flow the callers of the renamed return map its new name, their saved edges follow, and the layout is dirty if and only if one did |
| Drafts.DraftSession.MoveEdges | src/editor/draft.ts:897-902 | exactly the saved edges of the node move to its new id, and the layout is dirty if and only if there was one |
| Drafts.DraftSession.PushHistory | src/editor/draft.ts:136-140 | the draft is remembered within the limit and nothing can be redone |
| Drafts.DraftSession.Undo | src/editor/draft.ts:143-152 | restores the last remembered draft and remembers the present one for redo |
| Drafts.DraftSession.Redo | src/editor/draft.ts:155-164 | restores the draft that was undone last |
| Drafts.DraftSession.RenameNodeAt | src/editor/draft.ts:862-905 | renames the node, its targets, its positions and edges in place, with history, or changes nothing |
| Drafts.DraftSession.RenameFlowReturnAt | src/editor/draft.ts:1061-1115 | renames the return, its targets, its callers' mappings and saved ports in place, with history, or changes nothing |

## Left out

- SQLite, files, backups and maintenance mode: the store is a versioned map with atomic commit.
- Timestamps, boundary cursors, trace and notification texts, the monitoring copy of a dispatch's route and of a Judge's route stage.
- Checker configuration, persona, instruction and tool lists, definition hashes, and the trimming and defaulting that validation does beside its checks.
- Program parameters and the git and GitHub Programs themselves: a Program run answers PASS, FAIL, ERROR or nothing usable.
- Host calls between a read and a commit (probing, draining, compacting, sending): their answers are parameters, and `Workspaces` covers what other handlers commit meanwhile.
- The history-inspection of a terminated Run before a new one starts, authorization of tool calls, the Judge packet and all status views.
- Role and Judge admission, tombstone bookkeeping and provisional routes of participants; only the closure and the inspection are modelled.
- Editor operations other than the four renames, the call guard and history; the number of updated references they report; layout keys are structured instead of strings.
- Lifecycle.DispatchLifecycle.Consume: is taken after the microtask it awaits; results that settle in between are `Record` calls before it.
- Validation.ValidateAndNormalize: reports at least one entry of each cyclic call graph, not every workflow on a cycle; checker, persona and effort checks and the normalized copy are not modelled.
- LiveEngine.WorkflowEngine.Drive: arranges and enters; probing, compacting, sending and the publishing that follows, also of a Judge a former call arranged, are actions of `Workspaces`.
- LiveEngine.WorkflowEngine.HandleTurnEnded: takes the probe's verdict as a parameter; the row that is read again after the probe is the one the method starts from. The request a failover or a retry makes for its own new Judge, and the publication of the answer, are actions of `Workspaces` that follow its commit.
- LiveEngine.WorkflowEngine.HandleResume: takes the outcome of probes and drains as one host view; the rows read again in between are covered by the version each commit is made against.
- Single arrangements, publications, claims, verdicts, blocks, restarts, resets, model settings, failovers, retries, respawns, the branches of a resume, the arranging half of a Program run and its resolution are given as functions (`Engine.dfy`) and steps only: each is one guard and one record update, not updated field by field. The note a failover leaves for its Actor is a notification text.
- Names every object inherits as keys of other tables: a role called `constructor` is mapped to sessions, overrides and routes the tables inherited, since the engine reads those without asking for their own entries; the model's maps have only own entries.
- Deliveries.DispatchMessagesWereAnswered: speaks of the current dispatch; the copies kept of replaced dispatches are not traced.
