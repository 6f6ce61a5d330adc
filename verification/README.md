# A verified model of the wealth-management approval workflow

The backend watches a customer's finances, lets a planning worker propose actions, runs the
harmless ones by itself and asks the customer before it runs the others. This project models
that workflow in Dafny, down to the tables, and proves what it promises: nothing runs without
its approval, nothing runs twice, no approval is lost while the process stays up (and which are
lost when it does not), customers do not see each other, and the loop from readers to planner to
executors comes to rest. Around this core it models the event stream between server and web app,
the redaction of the customer's context, the tightening of the agent's output schema and the
session tokens.

How the files fit together:

- `store.dfy`, `book.dfy`, `proposals.dfy`, `policy.dfy`, `planner.dfy`: the rows, the finance
  tables with their readers and mock executors, the policy engine, detector and local planner.
- `workflow.dfy`, `service.dfy`: the specification. Every graph node, the graph's runner
  (`Drive`), every request (`Serve`) and whole runs (`Run`) are functions on database values.
- `backend.dfy`: the program's own form. A class holds the tables; its methods update them with
  the loops of the source, and each is proved to compute its specification.
- `invariants.dfy`, `planning.dfy`, `stepping.dfy`, `requests.dfy`, `safety.dfy`: each request in
  closed form, the invariant all requests keep, and safety over runs.
- `lifecycle.dfy`, `agreement.dfy`: the approval loop over whole runs with restarts, the two copies
  of the pending proposal, the reuse of threads, and the scope hash.
- `ownbooks.dfy`, `owndesks.dfy`, `isolation.dfy`: independence of customers. `access.dfy`: who is let
  in, and what exactly a thread's page shows.
- `finance.dfy`, `feedback.dfy`: what rebalancing and reviews do to the readers, and the closed loop.
  `messages.dfy`: from a message or an event to signal, plan, executions and stored proposals.
- `sse.dfy`, `text.dfy`: the stream printer and the incremental client. `eventstream.dfy`: the
  interpretation the standard gives to the same text (WHATWG HTML Living Standard, section 9.2.6),
  where the client agrees with it and where not.
- `json.dfy`, `redaction.dfy`, `schema.dfy`, `tighten.dfy`, `agentschema.dfy`: trees; `tighten.dfy`
  changes them in place, and `agentschema.dfy` holds the agent's whole output schema.
- `base64url.dfy`, `token.dfy`: section 5 of RFC 4648, section 7.1 and Appendix C of RFC 7515.
- `spending.dfy`: the spending summary. `options.dfy`, `seqs.dfy`: small shared vocabulary.

Conventions. A request carries a number from which all uuids it draws are made; it is admissible
when no row has such an id yet. Creation times increase, so ordered queries are lists. HMAC,
SHA-256, JSON text and the database's collation are parameters. The planning worker is the local
planner, or a foreign process that may return any plan the planning schema admits, or fail.
Amounts and weights are exact reals. Each request is one completed step: requests on a thread do
not overlap, and handlers return success or failure. Reading a thread and restarting the process
are steps of a run like the others; a restart loses the checkpoints, which are kept in memory.

Results worth knowing before reading on:

- `Isolation.Independence` holds for every interleaving: the rows of a customer, and every reply
  given to requests about that customer, are those of that customer's requests run alone. Replies
  show a thread's session, the session's proposals and their executions.
- `Lifecycle.PlanIsWorkedOff`: in any run, restarts included, a plan with k approval-needing
  proposals takes exactly k accepted decisions, in plan order. Fewer than k leave the rest `proposed`
  and the approval open. The decisions that count are those before the first restart
  (`Lifecycle.TakenBeforeRestart`), and the results list them while the checkpoint exists.
- A restart loses the approvals that are open at that time. `Lifecycle.FrozenForever`: an open approval
  without checkpoint keeps its session row and queue through every later run and is never decided;
  `Agreement.LostForGood`: every later decision on it is refused and changes nothing, with 500 exactly
  if it passes every gate in front of the graph.
- Opening the chat again (`Agreement.ReuseExactly`) leads back to the newest open approval exactly
  outside local mode or if that approval has its checkpoint. Otherwise that thread is retired and the
  chat is a new one, even if an older approval could be resumed (`Agreement.ResumablePassedOver`).
- Approval safety and at-most-once execution hold over runs with restarts in them, and for any plan
  of any worker: what is external, books a hospital or rebalances a portfolio never runs without an
  approval of that very proposal (`Safety.RiskyRunsAreApproved`).
- `Feedback.FeedbackSettles`: once the planner's proposals for an asset signal have been approved, in
  whatever run, asset signals end in monitoring exactly when the reported high-risk weight is below
  the planner's threshold. If there was too much risk, that weight is the first account's target plus
  the untouched weight of other accounts; with a single account of positive value it is always below,
  and if the first account has no value to rebalance the weight never moves.
- `Finance.ConservedExactly`: an account of positive value keeps its value exactly when both risk
  groups hold something and the target is at most one, or all of it is high-risk and the target is
  one. `Finance.SecondRunExactly`: repeating a rebalance changes nothing exactly for a target of
  one, for a smaller one when both groups hold something, for a larger one when nothing is
  high-risk, and for a negative one when everything is.
- A customer with no cash at all is never flagged for upcoming payments, however much is due:
  `Planner.PressureFlaggedExactly` says when the detector meets the rule it stands for.
- The strict schema pass does not leave the agent's output schema tight.
  `AgentSchema.TitleIsTheOnlyFault` shows it on the whole schema, and that the `title` property of
  `PlanStrategy`, popped after it was listed as required, is the only cause. `Schema.TightExactly`
  gives the condition for every schema.

## Model

| member | source | states |
|---|---|---|
| Isolation.Independence | app/workflows/service.py:253-344 | for any interleaving of requests of any customers and of restarts, one customer's final rows and every reply, with session, proposals and executions, are those of the run of that customer's requests alone on that customer's rows alone |
| Isolation.OwnStep | app/workflows/service.py:92-171 | a request served on all rows and on one customer's rows alone gets the same reply and has the same effect on them |
| Isolation.OwnDescribed | app/workflows/service.py:270-320 | a thread's page shows the same session, proposals and executions whether or not the tables hold other customers |
| Isolation.OtherStep | app/executor/handlers.py:180-199 | a request about another customer leaves every row of this customer as it was |
| Isolation.OutsiderChangesNothing | app/core/auth.py:106-111 | a principal the access rule refuses changes no row of that customer by any request; who that is, `Access.StrangerIsRefused` and `Access.InsiderReads` say |
| Access.StrangerIsRefused | app/core/auth.py:106-111 | a customer asking about another customer, by any request but a restart, leaves the whole database as it was and gets 403, or 404 exactly if there is no such chat anyway and no event was sent |
| Access.OnlyOperatorsSendEvents | app/core/auth.py:114-117 | an event from anybody but an operator is answered 403 and changes nothing |
| Access.OpenMeansBusy | app/workflows/service.py:103-106 | while an approval is open an event gets 409 and a message the page; nothing changes |
| Access.StaleDecision | app/workflows/service.py:159-164 | a decision while nothing waits, or about another than the pending proposal, gets 409 and changes nothing |
| Access.InsiderReads | app/core/auth.py:106-111 | an advisor, an operator and the customer concerned who read an active sealed thread get its page |
| Access.InsiderOpens | app/workflows/service.py:30-79 | the same persons get a chat for every known customer: an active thread of that customer, and its page |
| Access.NewChatOnDemand | app/workflows/service.py:41-79 | a forced new chat adds one monitored session and one thread that show nothing, and leaves every other row alone |
| Access.PageIsExact | app/workflows/service.py:270-320 | the page holds the session's proposals as they stand, each once and oldest first, and exactly their executions in the order written |
| Isolation.StepKeepsGood | app/executor/handlers.py:44-77 | every request keeps the workflow invariant and keeps accounts and policies unshared between customers |
| OwnBooks.OwnContext | app/tools/data_tools.py:70-95 | the context readers depend on nothing but the customer's own rows |
| OwnBooks.HandleOwn | app/executor/handlers.py:126-162 | an executor run for one customer commutes with looking at that customer's rows only, and is invisible in everyone else's |
| OwnDesks.OwnKeepsInv | app/workflows/nodes.py:464-473 | one customer's part of a state that satisfies the invariant satisfies it |
| OwnDesks.OwnPlanned | app/workflows/nodes.py:148-203 | storing and sweeping a plan commutes with looking at one customer's rows only, and is invisible to the others |
| OwnDesks.OwnDecided | app/workflows/nodes.py:229-294 | taking a decision commutes with looking at one customer's rows only, and is invisible to the others |
| OwnDesks.OwnPick | app/workflows/service.py:43-49 | which thread is reused depends only on the customer's own rows |
| Safety.StepKeepsInv | app/workflows/nodes.py:172-177 | every request, accepted or not, keeps the invariant: linked rows, one history per status, exact queues, agreeing copies |
| Safety.RestartKeepsInv | app/workflows/wm_graph.py:55 | losing all checkpoints keeps the invariant: no record depends on them |
| Safety.RunKeepsInv | app/workflows/service.py:92-171 | the invariant holds after every admissible run |
| Safety.EmptyDesk | app/workflows/service.py:58-61 | a database without sessions satisfies the invariant |
| Safety.ServeExtends | app/executor/handlers.py:165-177 | a request only appends to decisions and executions, removes no proposal, and moves only the status of proposed ones |
| Safety.RunExtends | app/workflows/nodes.py:250-280 | along a run decisions and executions are only added, and a proposal that has left `proposed` never changes again |
| Safety.ApprovedBeforeRun | app/workflows/nodes.py:250-262 | in every state that satisfies the invariant, an execution of a proposal that needs approval comes after an approval of that very proposal, and no other decision on it exists |
| Safety.RunApprovalSafety | app/executor/handlers.py:193-221 | the same for every execution recorded by the end of any run, with restarts in it or not |
| Safety.RiskyRunsAreApproved | app/policy/engine.py:11-27 | at the end of any run, whatever the worker has planned: an execution of what is external, books a hospital or rebalances comes after an approval of that very proposal, and an execution of any other internal kind has no decision at all |
| Safety.RiskyWaits | app/policy/engine.py:11-27 | as long as no approval of such a proposal is on record it is proposed, rejected or deferred, in every state a run can reach |
| Safety.RefusedForever | app/workflows/nodes.py:263-280 | a rejected or deferred proposal keeps its row and has no execution at the end of any run |
| Safety.RunAtMostOnce | app/executor/handlers.py:165-177 | after any run a proposal has exactly one execution row, with matching outcome, when it is executed or failed, and none otherwise |
| Safety.RunOutcomes | app/executor/handlers.py:27-42 | over any run every new execution is, in mock mode, a success of the handler for the proposal's own kind, and otherwise a failed external request, with the finance tables untouched |
| Safety.DecisionTouchesOnlyPending | app/workflows/service.py:159-164 | a decision leaves row and history of every proposal but the pending one unchanged: approving one never executes another |
| Invariants.ExecutionRows | app/executor/handlers.py:165-177 | status and execution rows correspond: one row of the right outcome for executed and failed, none for the other statuses |
| Invariants.ExecutedAtMostOnce | app/executor/handlers.py:199-205 | repeating the execution of a finished proposal returns the existing row or refuses, and writes nothing |
| Invariants.CoreAfterEntry | app/executor/handlers.py:165-177 | a status change together with its record keeps the links and histories whenever the status fits the longer history |
| Workflow.Closer | app/workflows/wm_graph.py:35-54 | along every edge the run comes closer to its next stop or uses up the answer, so the conditional loop always reaches a stop |
| Planning.PolicyNode | app/workflows/nodes.py:148-203 | for any plan the policy node never refuses: all rows are stored, exactly the automatic ones have run, the first that needs approval is parked |
| Planning.PlannedQueues | app/workflows/nodes.py:158-177 | the node appends exactly the plan's approval-needing proposals, in plan order, to its session's queue and touches no other queue |
| Stepping.DecisionNode | app/workflows/nodes.py:229-294 | a decision on the pending proposal is never refused by the graph and parks the next one in the queue |
| Stepping.DecisionQueues | app/workflows/nodes.py:464-473 | a decision takes the head off its session's queue and leaves every other queue alone |
| Stepping.TailStops | app/workflows/wm_graph.py:42-54 | after the policy or execution node the run pauses at the interrupt exactly when a proposal is pending, and ends otherwise |
| Requests.EventEffect | app/workflows/service.py:92-118 | the whole effect of an accepted event on all tables, for any plan, and of a failed agent job |
| Requests.DecisionEffect | app/workflows/service.py:148-171 | the whole effect of an accepted decision on all tables, taken on exactly the head of the session's queue |
| Requests.OpenApproval | app/workflows/nodes.py:172-177 | with an approval open, session row, queue and, if there is one, checkpoint name the same proposal, which belongs to the session, is proposed and needs approval |
| Lifecycle.CreateSteady | app/workflows/service.py:49-56 | opening or reusing a thread leaves session, queue and checkpoint of every open approval alone, and retires its thread only if its checkpoint is lost |
| Lifecycle.OnlyDecisionsMove | app/workflows/service.py:103-106 | an open approval, with or without checkpoint, is moved by no request but an accepted decision on its thread and a restart that takes its checkpoint |
| Lifecycle.RunKeepsThread | app/workflows/service.py:51-79 | along any run a thread keeps its session and customer, and a retired one stays retired |
| Lifecycle.FrozenForever | app/workflows/service.py:159-170 | an open approval without checkpoint stays open without one, with the same session row and queue, at the end of every run, restarts included, and takes no decision |
| Lifecycle.NeverDecided | app/workflows/nodes.py:229-294 | what such an approval waits for keeps its row, `proposed`, and has neither decision nor execution at the end of any run |
| Lifecycle.TakenBeforeRestart | app/workflows/wm_graph.py:55 | the decisions a run takes on an approval are exactly those taken before its first restart |
| Lifecycle.AcceptedMovesOn | app/workflows/nodes.py:229-294 | an accepted decision settles the head of the queue, moves on to the rest and extends the results by the execution it caused |
| Lifecycle.DecisionIsRecorded | app/workflows/nodes.py:241-262 | an accepted decision appends who decided what on the pending proposal and, for an approval, exactly one execution of it; only that moves the finance tables, by its handler, with its stored parameters, for the thread's customer |
| Lifecycle.ApprovalLoop | app/workflows/wm_graph.py:47-52 | over any run, restarts included, the accepted decisions settle the queue front to back and the rest goes on waiting; the checkpoint is there exactly if there was no restart before the loop closed, and then the results list exactly the approved ones in decision order |
| Lifecycle.MonitoredIsDone | app/workflows/nodes.py:282-285 | a session is monitored exactly when none of its proposals is `proposed`, and a pending id is set exactly in the approval state |
| Lifecycle.PlanIsWorkedOff | app/workflows/nodes.py:148-294 | over any run after an event whose plan has k approval-needing proposals: the automatic ones have run, at most k decisions are taken, in plan order, and the others stay `proposed`; fewer than k leave the approval open; while the loop is open the session is monitored exactly after the k-th, and unless there was a restart the results list the approved ones |
| Agreement.SkipsAreDead | app/workflows/nodes.py:206-234 | on no way through the graph is a node asked to skip: both conditional edges lead around it |
| Agreement.EventVisits | app/workflows/wm_graph.py:35-54 | an accepted event with a plan runs all seven nodes up to the policy check, in order, and then the interrupt exactly when something needs approval, else the three closing ones |
| Agreement.DecisionVisits | app/workflows/wm_graph.py:42-54 | an accepted decision is executed once; the run then asks again exactly when another proposal waits, else it closes |
| Agreement.GateIsExact | app/workflows/service.py:159-170 | a decision that passes the service's checks on a resumable thread is always taken by the graph; any other changes nothing and gets 403, 404, 409, or 500 exactly when only the checkpoint is missing |
| Agreement.StepKeepsResumable | app/workflows/wm_graph.py:55 | while the process stays up, every open approval keeps its checkpoint if all have one |
| Agreement.PickIsNewest | app/workflows/service.py:82-89 | the thread picked for reuse is the newest active one with an open approval, without any the newest active one, and none only if none is active |
| Agreement.ReuseExactly | app/workflows/service.py:43-79 | with an open approval on an active thread, opening the chat changes nothing and shows the picked approval if and only if the program is not local or that approval has its checkpoint; otherwise exactly that thread is retired and a new, empty, monitored one is shown |
| Agreement.RestartRetires | app/workflows/service.py:49-54 | in local mode, opening the chat right after a restart retires a thread whose approval is open, and its session goes on waiting |
| Agreement.LostForGood | app/workflows/service.py:159-170 | after any run every decision on an approval that lost its checkpoint is refused and changes nothing, with 500 exactly if only the checkpoint is missing |
| Agreement.ResumablePassedOver | app/workflows/service.py:49-54 | an input at which an approval with its checkpoint is not found again: a newer one without is retired and a new chat shown instead |
| Agreement.ReuseFindsApproval | app/workflows/service.py:43-89 | while every open approval has its checkpoint, or outside local mode, opening a chat again leads back to an active thread with an open approval, if there is one, and changes nothing |
| Agreement.StepKeepsSealed | app/workflows/service.py:69-76 | every request keeps each thread row sealed with the digest of its own scope |
| Agreement.OpenedIsUsable | app/workflows/service.py:30-79 | the thread returned for a customer belongs to that customer and passes all checks for the caller; otherwise nothing changed |
| Agreement.ScopeHashBinds | app/workflows/service.py:263-266 | a thread row pointed at another customer or session is refused for every request and nothing changes |
| Backend.Sums | app/tools/data_tools.py:232-233 | the loop's total, high-risk weight and high-risk count are the sums over all rows |
| Backend.Database.PortfolioSummary | app/tools/data_tools.py:227-241 | total and high-risk weight over all holdings of all the customer's accounts |
| Backend.Database.InsuranceSummary | app/tools/data_tools.py:70-95 | the gap hint appears exactly when no active coverage of the customer is cardiovascular |
| Backend.Database.SharePass | app/executor/handlers.py:101-114 | one pass rewrites exactly the account's rows of one risk group |
| Backend.Database.ApplyMockRebalance | app/executor/handlers.py:77-124 | the tables afterwards, including the cases in which nothing is written |
| Backend.Database.ApplyMockInsuranceReview | app/executor/handlers.py:44-74 | the policy and coverage inserted, or nothing |
| Backend.Database.HandleProposal | app/executor/handlers.py:126-162 | the execution row and the tables for every action kind and both execution modes |
| Backend.Database.ExecuteProposal | app/executor/handlers.py:165-177 | status, row and tables change together as specified |
| Backend.Database.RunScoped | app/executor/handlers.py:180-221 | every refusal with its code and untouched tables, the existing row for an executed proposal, an execution otherwise |
| Backend.SetDefaults | app/workflows/nodes.py:426-429 | the key-by-key loop is a merge in which existing entries win |
| Backend.ProposalParams | app/workflows/nodes.py:419-430 | the stored parameters of a plan item |
| Backend.Database.PersistPlan | app/workflows/nodes.py:399-416 | one new row per item, in plan order, nothing else |
| Backend.Database.SweepPlan | app/workflows/nodes.py:158-170 | the loop runs the automatic proposals, keeps the first that needs approval, and stops at the first refusal |
| Backend.Database.PolicyNode | app/workflows/nodes.py:148-203 | the node's effect on tables and graph state |
| Backend.Database.NextPending | app/workflows/nodes.py:464-473 | the loop finds the oldest proposed row of the session that needs approval, or none |
| Backend.Database.Ask | app/workflows/nodes.py:206-226 | skip, 404, stop, or take the answer |
| Backend.Database.Carry | app/workflows/nodes.py:241-262 | the decision's record and status, and the execution an approval causes or its refusal |
| Backend.Database.Act | app/workflows/nodes.py:229-294 | the node's effect on tables and graph state, with all its refusals |
| Backend.Database.Refresh | app/workflows/nodes.py:36-59 | scope checks, then the context of the session's customer |
| Backend.Database.Spawn | app/agent_jobs/dispatcher.py:65-73 | the local planner's list or the foreign worker's answer becomes the plan; a failed job is an error |
| Backend.Database.UpdateMemory | app/workflows/nodes.py:305-320 | monitoring again only when nothing is pending |
| Backend.Database.RunOne | app/workflows/wm_graph.py:22-33 | every node of the graph does what its specification says |
| Backend.Database.Invoke | app/workflows/wm_graph.py:35-54 | the runner ends at the stop the specification gives, and always ends |
| Backend.Database.ResolveThread | app/workflows/service.py:253-267 | the checks before any graph use, with their codes |
| Backend.Database.Trigger | app/workflows/service.py:92-118 | reply and tables after an event |
| Backend.Database.Submit | app/workflows/service.py:148-171 | reply and tables after a decision |
| Backend.Database.Post | app/api/routes/workflows.py:101-121 | a message is an event unless an approval is open |
| Backend.Database.Get | app/api/routes/workflows.py:44-52 | reading a thread resolves it first and changes nothing |
| Backend.Database.PickThread | app/workflows/service.py:82-89 | the newest waiting thread, else the newest |
| Backend.Database.CreateThread | app/workflows/service.py:30-79 | reuse, or retire and open, or open |
| Backend.Database.Request | app/api/routes/workflows.py:34-155 | every plain route's reply and effect, and a restart |
| Backend.Database.ServeAll | app/api/routes/workflows.py:64-155 | any admissible sequence of requests keeps the invariant and ends in the specified state |
| Feedback.AssetEvent | app/agent_jobs/local_stub.py:89-233 | an asset signal causes exactly two automatic executions and, exactly when risk or cover is amiss, an approval |
| Feedback.DetectionReachesApproval | app/signals/detectors.py:43-50 | an event without a kind, at 65% high-risk weight or more, stops at the approval of a rebalance after exactly two automatic executions |
| Feedback.MessageReachesReview | app/api/routes/workflows.py:101-121 | a message that mentions insurance, sent while nothing waits, stops at the approval of an insurance review after exactly one automatic execution |
| Messages.MessageLeads | app/signals/detectors.py:20-27 | a message sent while nothing waits: about insurance, one automatic run and a review to approve; else about investments or payments, two automatic runs and a rebalance, or else a review, to approve exactly from 55% high-risk weight on or with a gap; else what the figures alone lead to |
| Messages.EventLeads | app/agent_jobs/local_stub.py:15-86 | the same for an operator's event, by the kind it names, in capitals or not, blanks around it or not |
| Messages.UnnamedEventLeads | app/signals/detectors.py:38-73 | an event that names no kind leads to what the figures alone say |
| Messages.SignalLeads | app/agent_jobs/local_stub.py:15-86 | every accepted signal leads to exactly one of the three plans, with their executions, their approval and its kind |
| Messages.UnnamedSignal | app/signals/detectors.py:20-73 | kind and origin of a signal without a named kind: for a message by the markers that occur in it, for an event by the figures alone, whatever its text |
| Messages.NamedSignal | app/signals/detectors.py:19-36 | a named kind, stripped of outer blanks, is the signal's kind whatever the figures are |
| Feedback.HandleMends | app/executor/handlers.py:44-124 | a rebalance to the default target mends the risk, a review the cover, and no handler for anybody undoes either |
| Feedback.StepKeepsTame | app/agent_jobs/local_stub.py:144-190 | in local mode no request brings in a waiting rebalance whose target is not the default one |
| Feedback.LocalIsTame | app/agent_jobs/local_stub.py:144-190 | in local mode, after any run from tables without proposals, every waiting rebalance of every customer goes to the default target |
| Feedback.StepMends | app/executor/handlers.py:44-124 | no request undoes what has been mended; approving an own proposal mends what it is about |
| Feedback.ApprovedMends | app/workflows/nodes.py:229-294 | what was approved before the approval loop closed is mended at the end of the run, whatever the run holds, restarts included |
| Feedback.LoopMends | app/agent_jobs/local_stub.py:144-215 | a run in which all the planner's proposals for an asset signal are approved mends the cover, and the risk if a rebalance was among them and the first account has a value |
| Feedback.MendedAssetEvent | app/tools/data_tools.py:227-241 | with the cover mended the readers report no gap and the mended or the first weight, and an asset signal needs no approval exactly below the threshold |
| Feedback.FeedbackSettles | app/agent_jobs/local_stub.py:144-190 | at the end of a run in which the plan was approved, for too much risk, a missing cover or both, every asset signal for the customer runs a report and a cash-flow plan and ends in monitoring exactly when the reported weight is below the threshold; always with one account of positive value, and with the weight unmoved if there is no value to rebalance |
| Finance.RebalanceSums | app/executor/handlers.py:98-114 | the account's value, high-risk value, weights and row counts after a rebalance, for every mix of grades and every target |
| Finance.RebalancedRows | app/executor/handlers.py:101-114 | grades and accounts never change, other accounts' rows not at all, and each amount is its weight of the old total |
| Finance.ConservedExactly | app/executor/handlers.py:84-115 | value is conserved exactly when both groups hold something and the target is at most one, or all is high-risk and the target is one |
| Finance.SecondRunExactly | app/executor/handlers.py:84-115 | exactly when a repeated rebalance changes nothing, over all targets and mixes |
| Finance.ReaderAfterRebalance | app/tools/data_tools.py:227-241 | the high-risk weight the reader reports after a rebalance, with any number of accounts |
| Finance.ReviewClosesGap | app/executor/handlers.py:44-65 | after a review the reader reports no gap, whatever policies there were |
| Finance.SecondReviewWritesNothing | app/executor/handlers.py:44-65 | a repeated review writes nothing |
| Finance.ReviewedPolicyIsFirst | app/executor/handlers.py:44-65 | a review adds at most one rider, to the customer's first active policy by product name, the earliest among equals, and nothing exactly when that policy has an active one; without an active policy it opens one; nothing else is written |
| Finance.GapIsExact | app/tools/data_tools.py:70-95 | a gap is reported exactly when no policy of the customer, active or not, has active cardiovascular cover |
| Finance.ReaderTakesAll | app/tools/data_tools.py:227-241 | the portfolio reader takes every holding in an account of the customer as often as it is there, and no other |
| Proposals.TargetSurvives | app/workflows/nodes.py:419-430 | the executor's target is the first truthy one of the item's parameter, its execution parameter and 0.45, with the exact effect of an own `execution_params` entry |
| Proposals.ParamsAreStored | app/workflows/nodes.py:419-430 | what is stored for a plan item: its own entries, its summary, its steps field by field, and each execution parameter under its key, nested and, without an own entry, at the top |
| Proposals.TargetInNumbers | app/executor/handlers.py:84-97 | a target of zero counts as none, so the next one or 45% is used |
| Planner.PreviewBound | app/agent_jobs/local_stub.py:147-150 | the whole-won amount of the preview differs by less than two won from what the executor moves, and clamping never changes it |
| Messages.ShownAmountMoves | app/agent_jobs/local_stub.py:144-190 | the rebalance row stored after an asset signal shows one whole amount in both steps, and executing that very row moves it out of the high-risk group up to less than two won |
| Messages.RebalanceShows | app/agent_jobs/local_stub.py:151-180 | the stored steps are a sale and a move to cash of the previewed amount, both for the customer to approve |
| Messages.InsurancePlanShows | app/agent_jobs/local_stub.py:236-295 | report and review of an insurance plan are stored with the reported gap, or a general one |
| Planner.LeftAloneExactly | app/signals/detectors.py:38-74 | an event without a kind leads to an empty plan exactly when risk is below 65%, no cover is missing, and there is no cash at all or at most half of it is due |
| Planner.PressureFlaggedExactly | app/signals/detectors.py:52-66 | when payment pressure is flagged, and that this is "more than half of the cash is due" if and only if there is cash or nothing is due |
| Planner.BuildAssetPlan | app/agent_jobs/local_stub.py:89-233 | two items that need no approval, then only items that do: a rebalance exactly from 55% high-risk weight on, a review exactly when a gap is reported |
| Planner.BuildLocalPlan | app/agent_jobs/local_stub.py:15-86 | the local planner's choice of plan; a reported gap never leads to an empty one |
| Sse.ParseChunk | webapp/src/main.jsx:1499-1517 | the loop over lines gives the block's event |
| Sse.SplitExtends | webapp/src/main.jsx:1480-1482 | text that arrives later extends only the last, unfinished piece |
| Sse.DeliverBlocks | webapp/src/main.jsx:1483-1489 | blocks are delivered in order up to the first error event |
| Sse.StreamRequest | webapp/src/main.jsx:1474-1497 | wherever the text was cut, the client delivers what the whole text contains and keeps what follows its last complete block |
| Sse.Encode | app/api/routes/workflows.py:177-188 | the generator writes one block per item and an error block when the source raised |
| Sse.StreamReadsBack | webapp/src/main.jsx:1499-1517 | printed items come back as they were, up to the first error |
| Sse.DataLinesJoined | webapp/src/main.jsx:1499-1517 | several data lines of a block are joined by line feeds, and without an event line the event is a message |
| Sse.RoundTrip | webapp/src/main.jsx:1474-1517 | for all non-error items and all cuts the client delivers exactly those items, once each, in order, throws exactly a failure's data, and nothing is left in its buffer |
| EventStream.StreamIsRead | app/api/routes/workflows.py:177-188 | the standard's parser reads a printed stream as the items' names and JSON texts, in order, once each |
| EventStream.ClientAgrees | webapp/src/main.jsx:1474-1517 | on every printed stream of named items the client and the standard agree on types and data; the error item is what the client throws |
| EventStream.UnfinishedBlock | webapp/src/main.jsx:1491-1496 | a last block without its blank line is delivered by the client and discarded by the standard |
| EventStream.NamelessItem | webapp/src/main.jsx:1504 | an event with an empty name is a message for the standard and has an empty type for the client |
| EventStream.LeadingBlanks | webapp/src/main.jsx:1505 | the standard drops one leading space of data, the client all blanks |
| Base64Url.RepadRestores | app/core/auth.py:124-130 | padding by the negated length modulo four restores what stripping removed |
| Base64Url.DecodeEncode | app/core/auth.py:124-130 | decoding undoes encoding for every byte string |
| Base64Url.TextRoundTrip | app/core/auth.py:120-130 | every byte string comes back from its unpadded text, which holds no dot |
| Base64Url.TextsCompareAsBytes | app/core/auth.py:89-90 | comparing signature texts is comparing signature bytes |
| Base64Url.TextIsTabled | app/core/auth.py:120-125 | character k of the text is the entry of the URL-safe table (section 5 of RFC 4648) for bits 6k to 6k + 5, and there is one for every begun group of six bits |
| Token.JwtRoundTrip | app/core/auth.py:28-103 | a created token gives back subject, role and customer up to and including its expiry second and is refused afterwards |
| Token.TokenCarries | app/core/auth.py:28-53 | the three parts of a created token are the header, the payload with issue and expiry second, and the digest of the first two |
| Token.AcceptedIsSigned | app/core/auth.py:80-90 | an accepted token is a signing input followed by the text of that input's digest |
| Redaction.ExactPruning | app/adapters/mock/context.py:66-75 | a path exists in the redacted tree exactly when it exists in the raw tree and every key on it may be shown |
| Redaction.LeavesAndLengths | app/adapters/mock/context.py:73-75 | leaves and list lengths on shown paths are unchanged |
| Redaction.Idempotent | app/adapters/mock/context.py:66-75 | redacting twice is redacting once |
| Redaction.NoIdentifierLeft | app/adapters/mock/context.py:66-75 | no key on a path of the redacted tree is an identifier or one of the bank's fields |
| Redaction.OthersAreKept | app/adapters/mock/context.py:66-75 | a path without such keys is still there |
| Schema.TightExactly | app/agent_jobs/dispatcher.py:247-261 | the pass leaves every object node closed and requiring exactly its properties if and only if no reached property map loses or gains a name |
| Schema.SecondPassExactly | app/agent_jobs/dispatcher.py:247-261 | a second pass changes nothing under the same condition and only then |
| AgentSchema.OnlyStrategyDecides | app/planning/schemas.py:34-138 | the whole output schema meets the condition exactly when the property map of `PlanStrategy` does |
| AgentSchema.TitleIsTheOnlyFault | app/agent_jobs/dispatcher.py:239-244 | the output schema comes out of the pass neither tight nor stable; without the strategy's `title` property it would be both |
| AgentSchema.StrategyRequiresWhatItLacks | app/planning/schemas.py:34-41 | the tightened node of `PlanStrategy` requires `title`, which its property map no longer has |
| AgentSchema.ParamsTakenOut | app/agent_jobs/dispatcher.py:241-242 | removing `params` leaves the other properties of the action in their order |
| Tightening.PassInSteps | app/agent_jobs/dispatcher.py:248-258 | popping, assigning and then descending, key by key, is the pass at a dictionary |
| Tightening.Node.TightenHere | app/agent_jobs/dispatcher.py:248-256 | the dictionary after the pops and assignments, in place |
| Tightening.Node.TightenChild | app/agent_jobs/dispatcher.py:257-261 | tightening one contained dictionary or list changes no neighbour and not the container itself |
| Tightening.Node.Tighten | app/agent_jobs/dispatcher.py:247-261 | the in-place pass over a tree of separate dictionaries and lists computes the pass on the tree's value |
| Spending.SumOutflows | app/tools/data_tools.py:153-155 | the loop's three sums |
| Spending.AccountTransactions | app/tools/data_tools.py:138-173 | the figures of the window, and that the visible rows are its newest, at most 30 |
| Spending.WindowIsExact | app/tools/data_tools.py:146-151 | the window holds the customer's rows of its days, both ends included, as often as they are there |
| Spending.OnlyOutflowCounts | app/tools/data_tools.py:153-155 | incoming money counts nowhere, outgoing once in the total and once in its own category |
| Spending.SpendingBound | app/tools/data_tools.py:153-171 | truncated medical plus fixed cost is at most three times the truncated month plus two |
| Spending.BoundIsTight | app/tools/data_tools.py:441-450 | the bound is attained |

## Left out

- Requests that overlap on one thread, crashes between commits and handlers that raise: a request is one completed step.
- The foreign planning process, its job directories, retries and output screening: any plan the schema admits, or a failed job.
- The kinds `submit_claim` and `transfer_money` and the handler for unknown kinds: the planning schema admits neither.
- Audit events, chat messages, assessments, plan records, snapshots, jobs and timestamps other than creation order, in the tables and in replies: nothing modelled reads them.
- The node-by-node progress events of the streaming routes: they make the same database steps as the plain routes.
- Binary floating point, 28-digit decimals and column rounding: amounts and weights are exact; only the truncations to whole won are modelled.
- Password hashing, push subscriptions, consent, seed data, the debug view and schema migration: straight-line data handling.
- Other readers (profile, health, balances, cards, loans): their figures enter as fixed facts of the customer.
- Rendering, labels and the service worker of the web app.
- Proposals.TargetHigh: a target that is text, a list or a dictionary reads as 0.45 here; the planning schema does not admit one in its own field.
- Backend.Database.HandleProposal: the execution row's result dictionary is not represented, only executor and outcome.
- Backend.Database.Refresh: the context holds what detector and planner look at, not the whole redacted snapshot.
- Backend.ProposalParams: exact for any steps; of its own plan items the local planner's texts, and the willingness recorded for the customer among a review's parameters, are not written out.
- Feedback.Local: the dispatcher's screening of worker output for identifiers is part of the worker's success; the local planner's texts hold none and are taken to pass.
- Text.Lower: lowers ASCII letters only; the markers it is used with are ASCII.
- Base64Url.Decode: refuses characters outside the alphabet, which Python's decoder skips; a token with such characters in its payload carries no valid signature unless the server signed that very text.
- Sse.StreamRequest: chunks are texts; the byte decoder in front of the loop is not modelled.
- AgentSchema.Output: written out by the generator's rules for these models, with descriptions left open; the generator is not part of this model.
- Tightening.Node: schema trees without shared parts; a generated schema has none.
- Spending.AccountTransactions: the ordered query is a requirement that the table lists the newest rows first.
- Book.ApplyRebalance: "first account" is the first in the table's order, as an unordered query may return it.
- Service.SubmitDecision: resuming a graph without a checkpoint is an error of the graph library, answered with 500 here.
