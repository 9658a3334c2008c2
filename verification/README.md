# Verification of the IVR's configuration, call and audio logic

This project models the parts of the repository whose correctness is hardest to see from
reading one function, and proves what each of them is for.

- **SIP listener supervisor** (`SupervisorModel`, `ApplyLoops`, `DrainLoops`, `Supervisor`, `Saves`, with
  `Ports`, `ClientConfigs` and `Calls`). Saving a configuration reconciles the running listeners with it:
  ports are allocated, replacements are staged on free sockets, listeners whose socket is needed
  are drained, and starts that must wait are retried under a generation counter. The model is a
  step system (Apply, retry tick, drain finished, Stop); the class `Supervisor` carries out the
  steps in place and is tied to it.
- **Checked configuration** (`SipConfig`, `SipMeaning`). The validator is proved against exact
  predicates, and those justify what routing and reused actions assume at run time.
- **Call-flow layout** (`FnGraph`). A depth-first placement with a running cursor over an
  arbitrary graph.
- **JSON patches** (`JsonPointer`, `JsonPatch`). Pointers, the patch interpreter, and undo from
  the list of differences it reports.
- **Templates and TOML strings** (`Pipelines`, `Templates`, `TomlString`). Parsers paired with
  printers, and a printer paired with a decoder.
- **Audio** (`Rings`, `Recorder`, `OutputStream`, `Dtmf`). Two rings that are one queue, the stereo
  recording, the playback loop and the reader of telephone events.
- **OAuth tokens** (`OAuth`, `OAuthHistory`). Handlers interleaved statement by statement over the rows
  they change, and what every exchange goes back to.

`Text` holds the string helpers. `dafny verify dfyconfig.toml` checks the whole project.

## Where the code and what is said about it differ

The model follows the code. Each case below has a lemma with a concrete input, an exact condition,
or both.

- A staged replacement that fails leaves the old listener in place and schedules no retry
  (`core/sip/supervisor.go:139-143`), so a save does not always take effect in the end.
  `Saves.PortChangeNeverSeen` is a run of two valid saves where it never does, and
  `SupervisorModel.FailedStageNeverCatchesUp` says so for every such pair.
  `SupervisorModel.ConvergesUnlessStageFailed` gives the exact condition, and
  `SupervisorModel.FairRunExists` shows that the runs it speaks of exist from every state.
- The session manager says that every session created after a definition was saved sees the new
  one (`core/controller/manager.go:54-56`). A session runs the definition its listener had when the
  call was accepted. In the run of `Saves.PortChangeNeverSeen` every later session runs the old
  definition. `Saves.SessionsSeeSaveIff` says exactly when all of them see the new one: the calls
  in setup at the save were accepted under it, and so were the listeners started whose staged
  replacement failed.
- A queue end action can be refused as cyclic although its chain ends, because the text
  `queue/<name>` that the check starts from can be the selector of a menu action
  (`SipConfig.QueueNamedLikeAKeyIsRejected`). `SipConfig.ValidateActionReference` states exactly
  what is accepted.
- A function with an empty name passes validation as an entrypoint, but not every call meant for it
  gets there: none through an endpoint (`SipConfig.UnnamedEntrypointUnreachable`) or a catch-all,
  but calls do through an exact route (`SipConfig.UnnamedEntrypointReached`).
  `SipConfig.EntrypointReachedIff` says exactly when some call reaches a configured entrypoint: it
  is a name, or an exact route leads to it.
- Automatic ports are said to stay with their connection (`core/sip/supervisor.go:183-185`). After a
  change of transport makes two remembered ports collide, only one of the two keeps it, the first in
  the list (`Ports.CollidingMemoryDependsOnOrder`). `Ports.PortStaysIff` says exactly when a port
  stays: nobody names the socket, and no connection listed earlier remembers it too. The order of
  the list does not matter if and only if every socket that two connections remember is named by an
  explicit connection (`Ports.OrderIrrelevantIff`).
- Section 4.1 of RFC 6902 lets `add` put a new member into any object. Here it fails for the names of
  functions that every object inherits, such as `toString`: reading the member finds the function,
  which `cloneJSON` cannot copy (`ui/worker/lib/config-changes.ts:471`,
  `ui/worker/lib/config-changes.ts:529-532`). `JsonPatch.ToStringRefused` is such a patch, and
  `JsonPatch.AddMeaning` says exactly which additions are accepted.
- After a source error or a write error the output loop does not start the next source
  (`core/sip/output_stream.go:272-275`, `core/sip/output_stream.go:292-296`), so a later submission
  is heard before those waiting (`OutputStreams.LaterSubmissionOvertakes`).
  `OutputStreams.OrderKeptIff` says exactly when the order of submission is kept.
- The ring's `Write` says it always returns the length of its input; for a block longer than the ring
  it returns the capacity (`core/sip/recorder.go:242-251`).
- JSON escapes are not quite a subset of TOML's basic strings: DEL is written as it is, which TOML
  v1.0.0 does not allow. A multi-line string that starts with a line break loses it, and one with a
  carriage return outside CR LF is refused. `TomlString.RoundTrip` says for every string whether it
  is read back.
- Tokens can be inserted for a grant after it was revoked (`OAuth.TokensAfterRevocation`): exactly when
  a handler was about to insert them at that moment (`OAuth.LateTokensIff`), and never more than one
  access and one refresh token (`OAuth.OneLatePair`). They are of no use (`OAuth.RevokedGrantIsDead`).

## Model

| member | source | states |
|---|---|---|
| SupervisorModel.ConvergesUnlessStageFailed | core/sip/supervisor.go:110-172 | after an Apply and with no further Apply or Stop, every fair run of retries and drains settles for good on exactly the desired listeners if and only if no staged replacement failed |
| SupervisorModel.FailedStageNeverCatchesUp | core/sip/supervisor.go:136-144 | for any two listeners of one connection on different sockets, the run that saves both and fails to stage the second: from there no drains and retries ever bring the second into effect |
| SupervisorModel.FairRunExists | core/sip/supervisor.go:317-386 | from every state some quiet run goes on in which each drain has its turn, and each retry one in which a start would succeed or it is found waiting for a held socket |
| SupervisorModel.SaveCanTakeEffect | core/sip/supervisor.go:69-174 | after any save without a failed staged start there is a fair run that settles on exactly what was saved |
| SupervisorModel.SavedDefinitionRunsIff | core/sip/supervisor.go:136-151 | after a save of one definition, all listeners that run, then and later, run it if and only if those whose staged replacement failed ran it already |
| Saves.SessionsSeeSaveIff | core/controller/manager.go:54-68 | every session begun after a save runs the definition saved if and only if the calls then in setup were accepted under it and so were the listeners started whose staged replacement failed |
| Saves.PortChangeNeverSeen | core/sip/supervisor.go:136-144 | two valid definitions are saved, the second on a free port where the listener does not start: however long retries and drains go on, every session begun runs the first |
| Saves.PlannedRuns | core/sip/supervisor.go:84-96 | every listener a save asks for carries the definition saved |
| SupervisorModel.EventuallyConverged | core/sip/supervisor.go:317-386 | a fair quiet run without left-behind listeners reaches a state with the desired listeners live, nothing draining and nothing to retry |
| SupervisorModel.RestsOnlyConverged | core/sip/supervisor.go:317-386 | quiet steps can change nothing more exactly when the live listeners are the desired ones |
| SupervisorModel.QuietStepWorks | core/sip/supervisor.go:317-386 | every effective retry tick or finished drain uses up one drain or retry and disturbs no listener that runs |
| SupervisorModel.SyncedUnlessStageFailed | core/sip/supervisor.go:136-152 | Apply leaves a listener running another configuration exactly when a staged replacement failed |
| SupervisorModel.StepKeepsInv | core/sip/supervisor.go:69-440 | Apply, retry tick, finished drain and Stop each keep the invariant: sockets exclusive, desired listeners distinct, one current retry per waiting connection, every listener able to run what it routes to |
| SupervisorModel.RunsKeepInv | core/sip/supervisor.go:69-440 | the invariant holds in every state of every run |
| SupervisorModel.NoSocketHeldTwice | core/sip/supervisor.go:101-168 | in every reachable state no two listeners, live or draining, share a transport and port |
| SupervisorModel.LiveOrRetried | core/sip/supervisor.go:87-126 | until Stop, each desired connection is live or has exactly one retry of its current generation, never both |
| SupervisorModel.StartedFromLatestApply | core/sip/supervisor.go:288-306 | whatever listener appears or changes does so with the configuration of the most recent Apply |
| SupervisorModel.LiveFromOneApply | core/sip/supervisor.go:65-68 | every running listener has its configuration and its definition from one and the same earlier Apply, failed replacements included |
| SupervisorModel.EntrypointsExist | core/controller/manager.go:61-82 | in every run, failed replacements included, an entrypoint a running listener resolves names a function of the definition it runs with |
| SupervisorModel.StoppedForever | core/sip/supervisor.go:413-440 | after Stop no listener runs again |
| SupervisorModel.SameSocketOutcome | core/sip/supervisor.go:263-268 | a listener wanted on the socket it has goes on, as wanted now, if and only if external IP, registration, server, extension and domain are the same; otherwise it drains and has one retry of the new generation |
| SupervisorModel.OtherSocketOutcome | core/sip/supervisor.go:136-151 | a listener wanted on another socket moves at once if that is free and the start succeeds, stays as it was if the start fails, and drains and is retried if the socket is in use |
| SupervisorModel.NewListenerOutcome | core/sip/supervisor.go:115-128 | a connection without a listener starts exactly when its socket is free and the start succeeds, and is retried otherwise |
| SupervisorModel.UnwantedOutcome | core/sip/supervisor.go:154-168 | a listener no longer wanted drains, its generation is advanced, and it is not retried |
| SupervisorModel.DrainingIff | core/sip/supervisor.go:154-168 | after an Apply exactly the sockets drain that drained before or that a listener has left |
| SupervisorModel.TickOutcome | core/sip/supervisor.go:317-345 | one turn of a scheduler starts the listener, ends or waits, each under exactly the conditions a caller could check |
| Saves.SavedOverIff | core/sip/supervisor.go:130-151 | a running connection saved again on its socket goes on under the new save if and only if external IP, registration, server, and extension and domain or their defaults are the same; otherwise it drains and is retried once |
| Saves.ServerChangeDrains | core/sip/supervisor.go:263-268 | two valid saves that differ in the server only: the running listener drains and is retried |
| Saves.ConfigFields | core/sip/supervisor.go:238-261 | a listener runs with each field of its connection, and the stated default for an empty one |
| ApplyLoops.RunLoopIsOrderFree | core/sip/supervisor.go:98-152 | after any number of turns, in any order of ids, the main loop of Apply has done exactly what the state it started from decides for those ids |
| ApplyLoops.MidwayExclusive | core/sip/supervisor.go:101-107 | half way through the main loop the running and draining listeners still share no socket |
| ApplyLoops.Assemble | core/sip/supervisor.go:104-173 | the three loops together give the order-free outcome of Apply |
| DrainLoops.SweepVisit | core/sip/supervisor.go:154-168 | the drain loop over the clients gives the same result in any order of visits |
| ApplyLoops.MakePlan | core/sip/supervisor.go:80-97 | for a valid definition, allocation and the first loop of Apply give a plan with distinct sockets, one new generation per connection and the credential-less ones set aside |
| Supervisors.Supervisor.Apply | core/sip/supervisor.go:69-174 | accepts exactly valid definitions while not stopped; the new state is the Apply step of the plan made from that definition, and the session manager gets its definition and call limit; a refusal changes nothing |
| Supervisors.Supervisor.Reconcile | core/sip/supervisor.go:104-152 | the main loop in place leaves the loop variables where the specification loop does |
| Supervisors.Supervisor.ReconcileNew | core/sip/supervisor.go:115-128 | an id without a listener is deferred, started or queued for retry as the specification says |
| Supervisors.Supervisor.ReconcileOld | core/sip/supervisor.go:130-151 | an id with a listener is refreshed, staged or deferred as the specification says |
| Supervisors.Supervisor.Move | core/sip/supervisor.go:136-151 | a listener that cannot be updated in place is replaced on a free socket, kept when that start fails, deferred otherwise |
| Supervisors.Supervisor.RefreshListener | core/sip/supervisor.go:131-134 | an update in place changes configuration and definition together and nothing else |
| Supervisors.Supervisor.DrainDisplaced | core/sip/supervisor.go:154-168 | removed, credential-less and deferred listeners drain, with the generation of removed ones advanced |
| Supervisors.Supervisor.ScheduleDeferred | core/sip/supervisor.go:170-172 | each deferred connection gets one retry of its current generation |
| Supervisors.Supervisor.RetryTick | core/sip/supervisor.go:317-345 | one turn of a scheduler is a tick step: it ends when superseded, starts on a free socket, waits otherwise |
| Supervisors.Supervisor.SocketBusy | core/sip/supervisor.go:347-365 | the scan over live and draining clients answers exactly whether a socket is held |
| Supervisors.Supervisor.BeginDrain | core/sip/supervisor.go:367-372 | a listener that begins to drain stops accepting and its socket stays held |
| Supervisors.Supervisor.DrainFinished | core/sip/supervisor.go:374-385 | when a draining listener reports no calls, stopping it cuts off no accepted call, in setup or registered; its socket, and only that, becomes free |
| Supervisors.Supervisor.Stop | core/sip/supervisor.go:413-428 | Stop is the stop step, whatever was running, and stops every live and draining listener |
| Supervisors.Supervisor.TakeCall | core/sip/server.go:511-518 | a call that arrives at a running listener is accepted and brings along exactly what that listener runs, where every route leads to a function, whatever was saved or failed to start before |
| Supervisors.Supervisor.HandleCall | core/sip/server.go:402-422 | no step of a handler of calls breaks what the supervisor relies on, the call counts of running and draining listeners included |
| Supervisors.Supervisor.constructor | core/sip/supervisor.go:41-57 | a new supervisor is in the initial state, with a session manager of the definition's call limit, 10 if it is not positive |
| Ports.Allocate | core/sip/supervisor.go:186-225 | the loops give the declarative allocation and remember exactly the ports of the connections still automatic |
| Ports.AllocatedSocketsDistinct | core/sip/supervisor.go:186-225 | allocated connections have pairwise distinct sockets |
| Ports.FreshPortBound | core/sip/supervisor.go:209-218 | a fresh port lies between 5060 and 5060 plus the number of connections less one |
| Ports.FirstFree | core/sip/supervisor.go:211-214 | the search finds the least free port from 5060 on |
| Ports.PortKeptIff | core/sip/supervisor.go:196-208 | in every valid list and for every memory, a connection gets its remembered port if and only if no explicit one names the socket and no earlier one remembers it too |
| Ports.AllocationMeaning | core/sip/supervisor.go:186-225 | in every valid list and for every memory, a connection gets the port it names; the remembered one if nobody names it and nobody listed earlier remembers it; otherwise, in the order of ids, the first port from 5060 on that is left |
| Ports.PortStaysIff | core/sip/supervisor.go:183-208 | the port of a connection automatic in two successive lists stays, whatever else changes, if and only if nobody names its socket in the second and none listed earlier remembers it too |
| Ports.UnclaimedPortKept | core/sip/supervisor.go:196-208 | where no two remember the same unnamed socket, PortKeptIff comes down to this: an automatic connection keeps its port if and only if no explicit one names it |
| Ports.AllocationOrderIrrelevant | core/sip/supervisor.go:186-225 | when every socket remembered twice is named by an explicit connection, the port of each connection does not depend on the order of the list |
| Ports.SwapMovesPort | core/sip/supervisor.go:202-206 | the first of two connections that remember a socket nobody names gets another port when the two change places, in any allocation |
| Ports.OrderIrrelevantIff | core/sip/supervisor.go:186-225 | the order of a valid list does not matter if and only if every socket remembered twice is named by an explicit connection |
| Ports.AllocationExists | core/sip/supervisor.go:186-225 | every valid list can be allocated, whatever is remembered |
| Ports.CollidingMemoryDependsOnOrder | core/sip/supervisor.go:202-206 | two connections that pass Validate: after udp 5060 and tcp 5060 were given out and both are now udp, the first in the list gets 5060 and the other 5061, in either order |
| Ports.ReloadKeepsPorts | core/sip/supervisor.go:183-208 | a connection automatic in two successive lists, transports kept, gets the same port again if and only if the second list does not name it explicitly |
| Ports.ValidIsAllocatable | core/functions/sip_config.go:100-106 | what Validate compares is what the allocator binds, so a valid list has distinct explicit sockets |
| ClientConfigs.CollectDesired | core/sip/supervisor.go:84-97 | the first loop of Apply collects the listeners with a password, the ids without one, and one generation step per id |
| ClientConfigs.NormalizeIdempotent | core/sip/server.go:233-260 | normalising a configuration twice is normalising it once |
| ClientConfigs.ConfigSocket | core/sip/supervisor.go:227-261 | a connection's normalised configuration is bound to the socket the allocator gave it |
| ClientConfigs.HostIff | core/sip/server.go:250-256 | the default domain is the host of the server text exactly when that is host:port with one colon, or [host]:port |
| ClientConfigs.PlanForSound | core/sip/supervisor.go:84-96 | the listeners planned from a valid definition have distinct sockets and resolve only to functions that exist |
| SipConfig.Validate | core/functions/sip_config.go:48-154 | accepts exactly the definitions whose connections, routes, claims and reuse chains are sound |
| SipMeaning.AcceptedIff | core/functions/sip_config.go:48-206 | a definition is accepted if and only if its connections can work, no id and no socket is asked for twice, and every reuse reference starts a path of at most 32 hops to an action that reuses nothing, without naming the place it starts from |
| SipMeaning.ConnectionIff | core/functions/sip_config.go:58-151 | a connection is accepted if and only if its id matches the pattern, it can register or be called, its transport is udp, tcp or ws in any case, its port is in range, its networks parse and its target is sound |
| SipConfig.ValidateConnections | core/functions/sip_config.go:52-106 | accepts exactly lists of sound connections with unique ids and unclashing explicit ports |
| SipConfig.ValidateListener | core/functions/sip_config.go:66-99 | accepts exactly sound registration, transport, port and access fields |
| SipConfig.ValidateTargets | core/functions/sip_config.go:108-151 | accepts exactly an endpoint with a known entrypoint and no routes, or a trunk with sound routes |
| SipConfig.ValidateRoutes | core/functions/sip_config.go:123-150 | accepts exactly pairwise unclashing routes to known functions |
| SipConfig.ResolveEntrypoint | core/functions/sip_config.go:28-44 | the loop is the specified scan |
| SipConfig.ScanMeaning | core/functions/sip_config.go:32-43 | on a validated trunk the answer is the matching route's entrypoint, else the catch-all's, else none |
| SipConfig.RouteOrderIrrelevant | core/functions/sip_config.go:32-43 | the answer of a validated trunk is the same for any order of its routes, which stay valid |
| SipConfig.ExactBeatsCatchAll | core/functions/sip_config.go:34-43 | an exact match wins over a catch-all wherever they stand |
| SipMeaning.CalledWithOrWithoutPlus | core/functions/sip_config.go:18-43 | a called number reaches the route of that number with or without spaces around it and a plus sign before it |
| SipMeaning.OtherNumbers | core/functions/sip_config.go:28-44 | any other number goes to the catch-all, and nowhere without one |
| SipMeaning.NumberMeaning | core/functions/sip_config.go:18-24 | spaces around a number and one plus sign before it do not count |
| SipConfig.TrunkAnswersExactlyWhen | core/functions/sip_config.go:32-43 | a validated trunk answers exactly with an exact route or a catch-all to a named function |
| SipConfig.EntrypointReachedIff | core/functions/sip_config.go:28-44 | a configured entrypoint of a validated connection is reached by some called number if and only if it is not the empty name or an exact route leads to it |
| SipConfig.UnnamedEntrypointReached | core/functions/sip_config.go:39-41 | an accepted definition in which an exact route reaches the unnamed function |
| SipConfig.ResolvedEntrypointExists | core/functions/sip_config.go:108-134 | every entrypoint a validated connection resolves names a function |
| SipConfig.UnnamedEntrypointUnreachable | core/functions/sip_config.go:29-31 | an accepted definition whose endpoint leads to the unnamed function, which no call reaches |
| SipConfig.ValidateActionReference | core/functions/sip_config.go:180-206 | accepts exactly chains that end within 32 hops without passing through the selector they start from |
| SipConfig.ValidateActionReferences | core/functions/sip_config.go:156-178 | accepts exactly when every menu action and queue end is such a chain |
| SipConfig.SelectorInjective | core/functions/sip_config.go:191 | two references print the same selector only when they are the same |
| SipConfig.QueueNamedLikeAKeyIsRejected | core/functions/sip_config.go:167-176 | a definition whose connections are sound and which is accepted without its queue is refused because of the queue's name, although the queue's end action ends after one hop |
| SipConfig.ResolveAction | core/functions/fn.go:54-66 | the scan finds the last action with the number |
| SipConfig.IndexActions | core/functions/fn.go:24-30 | unnumbered actions get their position, others keep their number |
| SipConfig.Prepare | core/functions/definiton.go:88-103 | afterwards every action is numbered as IndexActions numbers it, and each name maps to the last function that has it |
| SipConfig.RuntimeFollowsChain | core/controller/session.go:304-328 | running an action avoids depth and lookup errors if and only if its chain ends within the hops left |
| SipMeaning.UnnumberedMenu | core/functions/fn.go:24-30 | in a menu without numbers the k-th action answers key k, and no other key does anything |
| SipMeaning.RunsIff | core/controller/session.go:304-328 | an action runs as what it configures if and only if a path of at most 32 hops along reuse, each to the last action with the number, leads there |
| SipConfig.ValidatedActionsRun | core/controller/session.go:317-328 | in a validated, prepared definition any key of any menu and any queue end runs without a depth or lookup error |
| Calls.PendingCounts | core/sip/server.go:402-422 | the pending counter always equals the calls in setup, so it is never negative |
| Calls.WhereCallsAre | core/sip/server.go:402-422 | in every run the calls in setup are those accepted and neither given up nor registered since, the registered ones those registered and not removed since |
| Calls.DrainingOnlyShrinks | core/sip/server.go:493-498 | once draining, active plus pending calls never grow, for every interleaving |
| Calls.ZeroMeansIdleForGood | core/sip/supervisor.go:378-381 | when the drain loop reads zero no accepted call is in setup or registered, then or later |
| Calls.ZeroBeforeDrainIsNotFinal | core/sip/server.go:406-415 | while calls are accepted a zero reading promises nothing |
| Calls.Client.BeginIncomingCall | core/sip/server.go:406-416 | an accepted call is reserved and gets one coherent configuration and definition |
| Calls.Client.RegisterCall | core/sip/server.go:676-680 | promotion moves a call from setup to active at once |
| Calls.Client.ReleasePendingCall | core/sip/server.go:418-422 | a call given up before registration leaves setup and the counter together |
| Calls.Client.CleanupCall | core/sip/server.go:721-731 | removing a call twice removes it once |
| Calls.Client.ActiveCalls | core/sip/server.go:766-771 | zero is reported exactly when no call is in setup or registered |
| Calls.SessionManager.CreateSession | core/controller/manager.go:68-93 | sessions are admitted in the order of checks limit, id, entrypoint, and a call never makes their number exceed the limit |
| Calls.RunningSince | core/controller/manager.go:68-93 | in every run the sessions are exactly those begun below the limit in force, under a new id and at a function of the definition they brought, and not ended since; each runs what it was begun with |
| Calls.LimitInForce | core/controller/manager.go:95-104 | the limit in force is the last one set, 10 for one that is not positive |
| Calls.LoweredLimit | core/controller/manager.go:95-104 | a new limit ends no session; below their number, every call is turned away until so many have ended that their number is below it |
| Calls.WithinLimit | core/controller/manager.go:68-93 | sessions within the limit stay within it over every run that does not change it |
| Calls.AnswerCall | core/sip/server.go:548-653 | with the pair captured when the call was accepted and the manager as it is by then, picks the routed function and asks for a session, which runs the captured definition; on a servable listener the entrypoint check cannot fail |
| Calls.CapturedPairAdmitted | core/controller/manager.go:61-82 | whatever happens to the manager between accepting a call and asking for its session, a servable captured pair never fails the entrypoint check |
| Calls.EndCall | core/sip/server.go:721-757 | cleaning up a registered call removes it and its session, and cleaning it up again does nothing |
| FnGraph.RunTreeLayout | ui/src/lib/fn-graph.ts:435-500 | for any graph it terminates; exactly the last node of each id gets a box, that of its one visit; no two boxes overlap; a tree starts exactly at a node whose claim is earlier than that of everything that leads to it, and trees start in the order of claims |
| FnGraph.TreeLayout.Place | ui/src/lib/fn-graph.ts:466-486 | places what is first reached through a node between the old and the new cursor, and leaves every node placed before where it is |
| FnGraph.TreeLayout.PlaceAll | ui/src/lib/fn-graph.ts:475-481 | children placed in turn keep the layout sound, and the centres returned are theirs, whoever placed them |
| FnGraph.TreeLayout.PlaceRoots | ui/src/lib/fn-graph.ts:488-499 | every node of rootOrder gets visited and nothing else starts a tree |
| FnGraph.BoxesApart | ui/src/lib/fn-graph.ts:110-117 | in a complete layout no two node rectangles have overlapping interiors |
| FnGraph.TreesStartLaw | ui/src/lib/fn-graph.ts:488-499 | along paths of edges between known nodes: a node starts a tree if and only if nothing with an earlier claim leads to it, where entrypoints come before functions and queues and these before actions |
| FnGraph.EntrypointFirst | ui/src/lib/fn-graph.ts:490-499 | the first entrypoint is the first visit and stands in column 0 |
| FnGraph.LedFromEntrypoint | ui/src/lib/fn-graph.ts:470-486 | a node that an entrypoint leads to, and that is none itself, never starts a tree and stands right of the first column |
| FnGraph.TreesTopToBottom | ui/src/lib/fn-graph.ts:488-499 | of two trees the one whose node has the earlier claim is visited first and stands above |
| FnGraph.BoxMeaning | ui/src/lib/fn-graph.ts:110-117 | a box has the size of its kind of node, stands in column 320 times the depth, and has its centre in the middle of its side |
| FnGraph.LeavesStacked | ui/src/lib/fn-graph.ts:477-480 | the first leaf is at the top, and each leaf starts 28 below the end of the last one |
| FnGraph.CloseSound | ui/src/lib/fn-graph.ts:481-485 | a parent's centre lies within the band placed during its own call, also when a child was placed under an earlier sibling |
| FnGraph.LeafKeepsSound | ui/src/lib/fn-graph.ts:477-480 | a leaf placed at the cursor is at least 88 below everything in its column |
| FnGraph.SiblingsTopToBottom | ui/src/lib/fn-graph.ts:448-461 | nodes with the same parent, and the roots, stand top to bottom in exactly the order of their list |
| FnGraph.MenuReadsByKey | ui/src/lib/fn-graph.ts:298-308 | of two children of one node, one is above the other exactly when its key comes earlier in 1 to 9, 0, #, *, actions before the rest, or, when keys do not decide, when an edge to it comes earlier |
| FnGraph.KeypadOrder | ui/src/lib/fn-graph.ts:448-461 | children with a smaller rank come first in the list of children |
| FnGraph.SortedInOrder | ui/src/lib/fn-graph.ts:460 | the sort keeps the children and orders them by rank, then by edge |
| FnGraph.ByIdIsLast | ui/src/lib/fn-graph.ts:436 | an id stands for the last node that has it |
| FnGraph.CollectOutEdges | ui/src/lib/fn-graph.ts:440-446 | the loop collects, per known source, the edges to known targets in order |
| JsonPointer.TwoPassesAreOne | ui/worker/lib/config-changes.ts:427-431 | on every accepted segment the two replaces equal one left-to-right decoding |
| JsonPointer.OrderOfPassesMatters | ui/worker/lib/config-changes.ts:430 | in the other order the replaces would read ~01 as a slash |
| JsonPointer.SegmentsOfPointer | ui/worker/lib/config-changes.ts:420-432 | the pointer encoded from any list of segments is accepted and gives that list |
| JsonPointer.PointerOfSegments | ui/worker/lib/config-changes.ts:420-432 | every accepted pointer is the encoding of its segments |
| JsonPatch.DeepEqualIsEquality | ui/worker/lib/config-changes.ts:538-556 | deepEqual is equality of JSON values |
| JsonPatch.ApplyJSONPatch | ui/worker/lib/config-changes.ts:338-418 | the loop is the specified fold, with the same result, diff and first error |
| JsonPatch.ApplyOperation | ui/worker/lib/config-changes.ts:354-415 | one operation is the specified one, errors in the same order |
| JsonPatch.ResolveParent | ui/worker/lib/config-changes.ts:434-455 | the walk finds the container of the last segment or the first error on the way |
| JsonPatch.AcceptedPatchUndone | ui/worker/lib/config-changes.ts:351-417 | for every accepted patch, the diff list run backwards on the result restores the input, one item per operation |
| JsonPatch.UndoArrayEdit | ui/worker/lib/config-changes.ts:474-503 | each array edit, at an index or at the end, is taken back by its diff item |
| JsonPatch.PatchSplitsAnywhere | ui/worker/lib/config-changes.ts:345-353 | within the size limits, applying p then q is applying their concatenation: same value, diffs joined |
| JsonPatch.RunConcat | ui/worker/lib/config-changes.ts:353-416 | the fold over p followed by q is the fold over q after the fold over p, errors included |
| JsonPatch.TestMeaning | ui/worker/lib/config-changes.ts:366-397 | a test succeeds exactly when its path is safe and the value found there is the value given; it changes nothing and reports that value |
| JsonPatch.ReadsBack | ui/worker/lib/config-changes.ts:407-409 | what add and replace put under a path is found there afterwards; after - as the last item |
| JsonPatch.RemoveMeaning | ui/worker/lib/config-changes.ts:398-407 | a removal succeeds exactly where the path is safe and there is a value; the member is gone, or the array items behind move up by one, nothing else changes, and the value is reported |
| JsonPatch.AddMeaning | ui/worker/lib/config-changes.ts:407-415 | an add succeeds exactly when its path is safe, a value is given, and the container is an object that has the member or inherits nothing of that name, or an array and the key - or an index up to its length; the member is set, or the item put in with later ones moved down, nothing else changes, and what was there before is reported |
| JsonPatch.ReplaceMeaning | ui/worker/lib/config-changes.ts:407-415 | a replacement succeeds exactly when its path is safe, a value is given and the path names a value; that value alone changes, and both are reported |
| JsonPatch.RootMeaning | ui/worker/lib/config-changes.ts:366-390 | at the root everything but a removal succeeds with a value, a test if it is the document; the whole document is replaced and reported |
| JsonPatch.ToStringRefused | ui/worker/lib/config-changes.ts:529-532 | adding a member toString fails on every object that has none, and succeeds on one that has |
| JsonPatch.PutKeepsOthers | ui/worker/lib/config-changes.ts:434-455 | an edit at one path is not seen along a path that parts from it |
| JsonPatch.OffsetIff | ui/worker/lib/config-changes.ts:505-522 | an array index is accepted exactly when it is the decimal numeral of a place in the array |
| JsonPatch.PutLaws | ui/worker/lib/config-changes.ts:434-455 | an edit at a path is read back there, overwritten by the next, and undone by putting the old value back |
| JsonPatch.DigitsAreAnIndex | ui/worker/lib/config-changes.ts:511-513 | the decimal text of every number is an accepted array index with that value |
| Pipelines.ParseIffPrints | ui/src/lib/template-render.ts:348-403 | parsing tokens gives p if and only if p is well formed and prints to exactly those tokens |
| Pipelines.PrintParsed | ui/src/lib/template-render.ts:387-403 | every accepted token list is printed back from its tree |
| Pipelines.ParsePrintedCmds | ui/src/lib/template-render.ts:387-403 | every well-formed pipeline, however nested, is parsed back from its tokens |
| Pipelines.ParsePipelineFromToks | ui/src/lib/template-render.ts:387-403 | the loop over tokens is the specified parser, first error included |
| Pipelines.ParseCommand | ui/src/lib/template-render.ts:348-385 | the loop over operands is the specified parser of commands |
| Pipelines.FindClose | ui/src/lib/template-render.ts:356-365 | the inner loop finds the matching parenthesis exactly when there is one |
| Templates.BuildBlocks | ui/src/lib/template-render.ts:149-210 | the loop is the specified block parser: nodes, next index, terminator and error |
| Templates.ParseFlattened | ui/src/lib/template-render.ts:149-210 | every tree of blocks is read back from its flat list |
| Templates.FlattenParsed | ui/src/lib/template-render.ts:149-210 | every accepted flat list is the flattening of its tree, up to an else right before its end |
| Templates.AcceptedIffNested | ui/src/lib/template-render.ts:158-209 | a flat list is accepted exactly when a stack of open blocks accepts it and every body is a pipeline |
| TomlString.RoundTrip | ui/src/lib/toml-render.ts:207-214 | a string is read back from what is written if and only if it is one line without DEL, or starts with no line break, has carriage returns only before line feeds, and holds no other control characters but tab |
| TomlString.DecodeEscaped | ui/src/lib/toml-render.ts:212-213 | the multi-line form is decoded to the string itself when its characters are allowed, runs of quotes, trailing quotes and CR LF included, and refused otherwise |
| TomlString.DecodeJsonBody | ui/src/lib/toml-render.ts:208 | the one-line form is decoded to the string itself unless it contains DEL, when it is refused |
| TomlString.TwoReplaces | ui/src/lib/toml-render.ts:212 | the two replaces equal one left-to-right escaping |
| Rings.ByteRing.Write | core/sip/recorder.go:236-276 | the contents become the last bytes of the old contents and the block, at most the capacity; the count returned is the capacity for a longer block |
| Rings.ByteRing.Read | core/sip/recorder.go:281-304 | pops a prefix of the contents into the front of the destination and leaves its rest alone |
| Rings.WriteIsEnqueue | core/sip/recorder.go:253-274 | writing behind the contents round the ring and moving the read index is appending and dropping the oldest |
| Rings.BlockIsPushes | core/audio/capture.go:225-245 | a block written at once leaves what its elements leave pushed one at a time |
| Rings.CaptureRing.OnAudio | core/audio/capture.go:211-246 | the samples of one channel, as far as whole frames go, are appended with the oldest dropped |
| Rings.SamplesOfChannel | core/audio/capture.go:225-230 | the k-th sample taken is the little-endian 16-bit number of the channel in the k-th frame, for every frame there as far as its channel |
| Rings.CaptureRing.Push | core/audio/capture.go:231-244 | one element is appended and the oldest dropped when full |
| Rings.CaptureRing.ReadSamples | core/audio/capture.go:251-268 | pops a prefix of the contents |
| Recorders.Recorder.FeedOutbound | core/sip/recorder.go:166-204 | an even frame adds its bytes on the right and the popped, zero-padded inbound bytes on the left; the last two bytes of an odd frame are left over; a longer frame is dropped |
| Recorders.Recorder.FeedInbound | core/sip/recorder.go:142-154 | decoded bytes join the queue while recording and are ignored otherwise |
| Recorders.Recorder.Stop | core/sip/recorder.go:112-136 | recording ends with the chunk sizes of the data written, modulo 2^32 |
| Recorders.ChannelsOfRun | core/sip/recorder.go:166-204 | over any run of even frames the right channel is the frames of at most 320 bytes end to end and the left what they found of the newest 1280 bytes queued, with silence for the rest, equally long |
| Recorders.NothingLostWhenSmooth | core/sip/recorder.go:187-190 | without overrun or shortage the left channel with the queue is the inbound audio itself |
| OutputStreams.OnePlaceEach | core/sip/output_stream.go:189-310 | in every run each job sent is in exactly one place: ctrl, refused, current, pending, or finished with one result |
| OutputStreams.LeftWithoutResult | core/sip/output_stream.go:210-215 | once the loop has ended, exactly the jobs still in ctrl or refused there have no result from it |
| OutputStreams.ClearFinishesTheRest | core/sip/output_stream.go:216-218 | a clear interrupts precisely the unfinished jobs taken before it, in order, and does not end a pause |
| OutputStreams.PausedIff | core/sip/output_stream.go:219-222 | in every run the loop is paused if and only if the last Pause or Resume taken is a Pause; exactly then a source it has is not read |
| OutputStreams.PausedIsSilent | core/sip/output_stream.go:261-308 | from a pause until a Resume is taken no frame of a source goes out and no source ends of itself |
| OutputStreams.PauseKeepsTheSource | core/sip/output_stream.go:141-155 | Pause and Resume change nothing else, and after a Resume the current source can be read again |
| OutputStreams.CtrlIsAQueue | core/sip/output_stream.go:236-247 | the operations accepted are taken in order or still wait, at most 64 of them |
| OutputStreams.FramesAreThoseRead | core/sip/output_stream.go:262-284 | in every run the frames sent are those the source then current gave and that could be written |
| OutputStreams.ResultIff | core/sip/output_stream.go:189-310 | which of the four results a job has, read off the steps: its source's end, its source's error, a failed write, or a Clear or Shutdown that found it unfinished |
| OutputStreams.OrderKeptIff | core/sip/output_stream.go:223-230 | jobs are finished and tried in the order taken if and only if none is taken while others wait behind a failed source |
| OutputStreams.FramesInSubmissionOrder | core/sip/output_stream.go:260-298 | frames come out job by job; in runs without errors in the order of submission |
| OutputStreams.LaterSubmissionOvertakes | core/sip/output_stream.go:292-296 | a run in which the third job is heard while the second still waits |
| OutputStreams.OutputStream.Turn | core/sip/output_stream.go:260-309 | one turn of the loop takes the operations waiting, up to a shutdown, and unless there was one sends one frame, of the source when there is one and the loop is not paused, else of silence |
| OutputStreams.OutputStream.DrainOps | core/sip/output_stream.go:236-247 | all waiting operations are taken in order, up to a shutdown |
| OutputStreams.OutputStream.HandleOp | core/sip/output_stream.go:210-233 | one operation does what the specification says |
| OutputStreams.OutputStream.PlayFrame | core/sip/output_stream.go:266-298 | a frame, an end of file, a source error and a write error end as specified, promoting only after end of file |
| OAuth.OneRightPerGrant | ui/worker/lib/oauth.ts:457-575 | under every interleaving, per grant the unused codes, issuances in flight and unrevoked refresh tokens are together at most one |
| OAuth.ExchangedAtMostOnce | ui/worker/lib/oauth.ts:497-540 | each code and each refresh token is exchanged at most once in every run |
| OAuth.RevokedGrantIsDead | ui/worker/lib/oauth.ts:128-156 | once a grant is revoked none of its tokens, later ones included, authenticates or refreshes again |
| OAuth.RevocationTakesEffect | ui/worker/lib/oauth.ts:212-228 | both ways of revoking leave the grant revoked |
| OAuth.TokensAfterRevocation | ui/worker/lib/oauth.ts:543-564 | a run in which tokens are inserted for a grant already revoked |
| OAuth.LateTokensIff | ui/worker/lib/oauth.ts:543-564 | tokens can still appear for a revoked grant if and only if a handler was about to insert them |
| OAuth.OneLatePair | ui/worker/lib/oauth.ts:543-564 | whatever follows a revocation, at most one access token and at most one refresh token of the grant are added |
| OAuthHistory.CodeExchangedOnlyIf | ui/worker/lib/oauth.ts:457-509 | in every run a code is exchanged only by a handler that asked with the client, redirect and challenge the code was approved for before, less than five minutes after the approval |
| OAuthHistory.ApprovedCodeIsExchanged | ui/worker/lib/oauth.ts:457-509 | an approved code not exchanged yet, of a grant not revoked, is exchanged for whoever asks within five minutes with those fields, and tokens of an hour and of thirty days come out |
| OAuthHistory.RefreshExchangedOnlyIf | ui/worker/lib/oauth.ts:511-541 | in every run a refresh token is exchanged only for its client and less than thirty days after the exchange that brought it was asked for |
| OAuthHistory.IssuedTokenIsExchanged | ui/worker/lib/oauth.ts:511-541 | a refresh token neither used nor revoked, asked for in time by its client, is exchanged |
| OAuthHistory.InsertedOnlyIf | ui/worker/lib/oauth.ts:543-564 | tokens are inserted only for the grant whose code or refresh token the handler presented |
| OAuthHistory.AuthenticatesIff | ui/worker/lib/oauth.ts:128-156 | a bearer is let in exactly with an access token, for an hour from the request that brought it, while neither the token nor its grant is revoked |
| OAuthHistory.TokenHolderRevokes | ui/worker/lib/oauth.ts:577-594 | whoever presents any token of a grant, whatever became of it, has the grant and all its tokens revoked |
| OAuthHistory.RevocationTakesOnly | ui/worker/lib/oauth.ts:577-594 | a revocation marks the tokens of its grant that are still good and nothing else |
| OAuth.Database.ExchangeAuthorizationCode | ui/worker/lib/oauth.ts:457-509 | left alone, issues tokens exactly for an acceptable code of an unrevoked grant, spends the code, and is a run of its steps |
| OAuth.Database.ExchangeRefreshToken | ui/worker/lib/oauth.ts:511-541 | left alone, issues tokens exactly for an acceptable refresh token, which it revokes |
| OAuth.Database.RevokeByToken | ui/worker/lib/oauth.ts:577-594 | afterwards the token's grant is revoked and the token is of no use at any time |
| OAuth.Database.RevokeByAgentsPage | ui/worker/lib/oauth.ts:212-228 | revokes an active grant and all its tokens, and reports any other grant as not found |
| Dtmf.OneDigitPerEvent | core/sip/dtmf_reader.go:67-107 | polled after each packet, the digits are one per maximal run of equal timestamp and event with a qualifying end packet |
| Dtmf.OneKeyPerRun | core/sip/dtmf_reader.go:67-107 | a run of packets with one timestamp and event gives the key of the event, once, if an end packet in it lasts 40 whole milliseconds or more and the event is in the table, and nothing otherwise |
| Dtmf.CopiesDoNotMatter | core/sip/dtmf_reader.go:14-18 | repeating, losing or reordering packets of a run changes nothing while it keeps a packet, and a qualifying one if it had one |
| Dtmf.WholeMilliseconds | core/sip/dtmf_reader.go:85-86 | the rounded test on milliseconds is the exact test on the duration |
| Dtmf.Reader.ProcessEvent | core/sip/dtmf_reader.go:67-101 | one packet updates the last event and stores a digit exactly when it is the first qualifying one of its event |
| Dtmf.ReadLoop | core/sip/phone.go:133-157 | the reading loop reports exactly the digits of the stream's events |

## Left out

- Sockets, SIP dialogs, registration and timers: a start succeeds or fails, a drain finishes and a retry
  comes round as the environment decides; convergence assumes that each of them does in the end.
- Status reports, their silencing, and the re-registration that Update can trigger.
- Supervisors.Supervisor.Stop: does not wait for the drains, which the step system finishes as any
  others, and does not end the sessions of the manager after them.
- Unregistering and closing the user agent in Client.Stop; the calls it ends are modelled.
- The uint64 wrap-around of the generation counter; it is a natural number here.
- net.ParseCIDR: whether it accepts a text is a field of the model. sourceAllowed and digest
  authentication are not modelled.
- Lower-casing is that of ASCII letters.
- Session behaviour other than following reuse: audio, queues, hooks, scripts, enterFunction.
- The building of nodes and edges from a definition (buildNodesAndEdges); the layout is proved for every graph.
- Layout coordinates are real numbers, not floating point.
- JsonPatch.ApplyJSONPatch: trees are values and an edit puts a new container in its path; the source
  edits a deep copy in place, whose parts are not shared.
- Minus zero and the order of members of JavaScript objects; numbers are opaque.
- The length of a patch as text is a parameter.
- Splitting a template into texts and actions, tokenising an action, and evaluating either.
- Rendering of whole TOML documents; only strings are exact inverses. TOML lets a decoder normalise
  line breaks; the one modelled keeps CR LF as it is. Characters are Unicode scalar values, so lone
  surrogates do not occur.
- The codec of inbound audio: the recorder receives decoded bytes. File errors while writing, short
  writes, and the 44-byte header apart from its two sizes.
- Capture devices, and the float adapter behind readSamples.
- The select of OutputStream.Submit on a closed stream takes either branch, as in the source; what its
  callers do with the result is not modelled.
- Rows of clients and authorization requests, expiry of requests, PKCE and hashing: ids stand for hashes
  and the challenge is compared as text. Nothing is claimed about how many grants one request can give.
- RTP headers and the payload decoder: a packet that does not decode is an item of its own. The
  character of an event is that of the table in section 3.2 of RFC 4733; media.DTMFToRune is not part
  of this model.
- HTTP services, TTS, uploads, hot reload, the React components and the preview proxy.
