# Verification of ic-http-lb

A Dafny 4.11 model of the parts of ic-http-lb that are its own logic, with proofs. `dafny verify dfyconfig.toml`
checks everything.

## What is modelled

**Hot reconfiguration** (`src/backend.rs`, `src/api.rs`). `protocol.dfy` is a step system: any number of admin tasks
(`set_config`, `config_put`, `load_config`, `set_backend_state`, `get_config`, `persist_config`) around one
mutex-guarded config, any number of lock-free readers (`get_backend_router`), and an environment that publishes
health, closes watch channels and edits the config file. A step is the code between two points where another task
can be seen: an apply is Build, Subscribe, Observe (or HangUp), Load, Store, CallStop, FinishStop, first for the main
slot and then for the fallback slot, then Release. A task may be dropped wherever it awaits. `manager_invariant.dfy`
and `protocol_invariant.dfy` prove the invariant step by step. The results over whole runs are in
`protocol_theorems.dfy` (slots, routers, health gate), `protocol_operations.dfy` (the operations linearize: what each
task was asked, what it did to the config and what it answered), `protocol_file.dfy` (the config file),
`protocol_reads.dfy` (readers), `protocol_traces.dfy` (the swap, the wait) and `protocol_lives.dfy` (what is recorded of
a router counts the steps of the run); `protocol_examples.dfy` gives runs that show which hypotheses are needed.
`config.dfy` and `register.dfy` hold the config, its toggles and the sequential register the operations linearize to.
`manager.dfy` and `api.dfy` are the same methods in their own form, a class whose methods update the config field, the
two slots and the file, as one caller at a time sees them.

**The request handler** (`src/routing.rs`, `RequestExecutor::execute` in `src/backend.rs`). `handler.dfy` has the
methods with the countdown, the doubling delay and the per-request context they update in place. They are proved
equal to `retry.dfy`, which says what a request must bring about through "first success among the first N attempts".
`collector.dfy` is the size-limited body collector. `handler_answers.dfy` says what is answered and what is handed to
the backends by the settings, the request and the router's turns alone. `handler_theorems.dfy` has the closed form of
the backoff, the exact condition for the overflow of the delay, the no-replay property, rewriting, and transparency of
buffering.

**Accounting** (`src/middleware/metrics.rs`). `metrics.dfy` is a step system of request futures, which may be dropped
while they run, the loggers they spawn, and the oneshot channel between them; and the "retried" label end to end.

## Assumptions

- The library router is an environment: which healthy backend is picked, what the client answers and what health is
  published are arbitrary (`Retry.World.turns`, `Protocol.Change`). Assumed of it: the watch channel is a value with a
  version, `subscribe` marks the current version as seen, `changed` answers Ok when there is an unseen version and Err
  only when there is none and the sender is gone, a backend once known never becomes Unknown again, and `stop`
  returns.
- A future is dropped only at an await; dropping an apply releases the guard. What the library does with a router
  whose `stop` was cut short, or that was never installed, is unknown: such routers are the `leaked` ones. A file
  write that was handed to the blocking pool may still land after its task was dropped (`Protocol.Detached`).
- Config parsing and printing are functions; where a result needs it, printing then parsing is assumed to be the
  identity (`BackendManagers.RoundTrips`). Whole-file reads and writes are atomic.
- `extract_authority`, URI building and header stripping (section 7.6.1 of RFC 9110) are functions of the world. That
  stripping keeps a field which is not hop-by-hop and which the connection field of the same request does not name is
  a hypothesis (`HandlerTheorems.KeepsUnnamed`), stated where it is used.
- `buffer_body` of the library is taken to be the same collector as the one in `buffer_response`.
- Handlers run inside the scope of the request context, and `retry_attempts` is at least 1 (`src/cli.rs:206`).
- A deadline is a frame of the body (`Http.Stalled`): it passes before the next frame comes.

## What turned out false, and the exact condition

- *wait_healthchecks ends once every backend has a known state.* Not if all answers were published before the
  subscription: `ProtocolExamples.EarlyAnswerBlocks` gives the run, with the lock held for ever. With all states known
  and the channel open, the wait gets through if and only if something was published after the subscription
  (`ProtocolTraces.GateOpensIffPublishStep`), and from then on it is over or one look away from its end
  (`ProtocolTraces.GateStaysOpen`); nothing else can stop an apply, given that `stop` returns
  (`ProtocolTheorems.HolderGoesOn`).
- *Whenever the lock is free both slots are what the config asks for.* Not after an apply was dropped half way:
  `ProtocolExamples.DroppedApplyTears` gives the run, which also leaves a router running that nobody knows of. It holds
  as long as no apply is dropped before both its stores (`ProtocolTheorems.AgreementWhenFree`), and again from the next
  apply that completes on (`ProtocolTheorems.ReleaseRepairs`).
- *After two successful puts the file holds the applied config.* The file is written after the lock is given up
  (`src/backend.rs:314-319`), so a late writer can win: `ProtocolExamples.LateWriterWins` for any two different
  configs with nothing enabled, `ProtocolExamples.StaleFileHappens` with two given ones. At any moment of any run, if a
  step has written the file and nobody has written or edited it since, it holds the applied config if and only if the
  changes logged since the snapshot that step wrote cancel out, whether the writer was dropped in the meantime or not
  (`ProtocolFile.FileIsCurrentIff`). Where only puts have run, that means that no upload came after that snapshot, or
  the last one was of the very config written (`ProtocolFile.PutsLeaveFileCurrentIff`). One admin at a time is safe: a
  put that starts when every task has ended, no write of a dropped one being under way, and that succeeds before
  anything else is asked for leaves config, file and slots as it says (`ProtocolFile.PutAloneIsCurrent`). Once written,
  and unless edited from outside after that, the file holds some config of the past
  (`ProtocolFile.FileHoldsPastConfig`).
- *get_backend_router answers with what one look at both slots would have given at some moment of the call.* It loads
  the main slot, tests its health and loads the fallback slot at three moments. `ProtocolExamples.TornRead`: the reader
  finds no main router, an apply installs one and then empties the fallback slot, and the answer is None although one
  look at any moment of the call would have found a router. At the moment of the last load the answer is that of one
  look if and only if no healthy main router is there by then (`ProtocolReads.LastLookIff`); at the moment of the health
  test, if and only if the tested router is still in the slot (`ProtocolReads.TestIff`).
- *The backend gets the host the client asked for.* Not if the client's connection field names `x-forwarded-host` and
  stripping follows section 7.6.1 of RFC 9110; that is the exact condition (`HandlerTheorems.HostArrivesIff`).
- *The retry delay cannot overflow.* No request can overflow it if and only if requests are never buffered or
  retry_interval * 2^retry_attempts fits a Duration (`HandlerTheorems.HandlerNeverPanicsIff`, with a backend that
  refuses every call as the input that fails, `HandlerTheorems.RefusalsPanic`); the doubling happens even after the
  last attempt, and the process then aborts. For one request and its answers, `HandlerTheorems.PanicsIffDelayOverflows`.
- *Response buffering is transparent.* For status, headers and data, yes; trailers survive if and only if the response
  was not buffered or had none (`HandlerTheorems.TrailersSurviveIff`).
- A body is buffered when its exact size is at most the limit (`src/routing.rs:192`, `src/routing.rs:135`), where the
  option's help text says "smaller" (`src/cli.rs:106`). A request body that is too long or breaks is answered like a
  timeout (`src/routing.rs:219-221`). A put whose write fails answers 500 with the new config applied
  (`src/api.rs:144-156`). The model follows the code.

## Model

| member | source | states |
|---|---|---|
| Configs.AcceptsIffNamesDiffer | src/backend.rs:289-298 | a config passes the check iff no two positions of backends followed by fallback share a name |
| Configs.AcceptsInFull | src/backend.rs:289-298 | in full: no two main names are equal, no two fallback names, and no main name equals a fallback name |
| Configs.Find | src/backend.rs:345-349 | the first backend of that name, or none of them has it |
| Configs.ToggleReplay | src/backend.rs:340-356 | after any sequence of toggles, failed ones included, the config is the original with the last flag of each toggled name, names unchanged and unique |
| Configs.ToggledInFull | src/backend.rs:345-350 | a toggle works iff some main backend has the name; then that one gets the flag and nothing else changes |
| Configs.LastFlagsExact | src/backend.rs:345-350 | that replay writes a flag for exactly the toggled names, and it is the flag of the last toggle of the name |
| Configs.TogglesCommute | src/backend.rs:345-350 | toggles of different names commute |
| Configs.EnabledPositions | src/backend.rs:242-255 | the enabled list is the subsequence at all and only the enabled positions |
| Configs.BuiltFromEnabled | src/backend.rs:90-134 | a slot's view has one target per enabled entry, in order, with its name, url, weight and health URI, under the config's strategy |
| Configs.EnabledEmptyIff | src/backend.rs:242-255 | the enabled list is empty iff every entry is disabled |
| Configs.SlotNoneIff | src/backend.rs:217-218 | the main slot is to be None iff no main backend is enabled, the fallback slot iff there is no fallback list or nothing on it is enabled |
| Register.LegalStaysUnique | src/backend.rs:287-298 | along every legal log of register events the names stay unique |
| Register.SinceLastUpload | src/backend.rs:300-353 | the register is the last upload with the last flag of every name toggled since |
| Register.SinceUploadInFull | src/backend.rs:300-353 | entry by entry: the register is the last upload, each flag being that of the last flip of the name since, or its own if there was none |
| Register.BackIffCancelOut | src/backend.rs:300-353 | the register is back at what it held iff, with no upload since, every toggled backend got its own flag back, or else the last upload with its later flags is that config |
| Health.Check | src/backend.rs:394-422 | a check never answers Unknown, and Healthy exactly for a success status within the timeout |
| ManagerInvariant.MoveKeeps | src/backend.rs:179-191 | moving through the wait keeps the whole invariant |
| ManagerInvariant.BuildKeeps | src/backend.rs:217-223 | building keeps the invariant and adds nothing for an empty list, else one router of the wanted view, uninstalled and with every state Unknown |
| ManagerInvariant.StoreKeeps | src/backend.rs:226-230 | the store puts the planned router in the slot and turns the old one into the one to stop |
| ManagerInvariant.CallStopKeeps | src/backend.rs:233-234 | the replaced router, out of both slots by then, is stopped for the first time |
| ManagerInvariant.FinishStopKeeps | src/backend.rs:233-236 | once its stop is awaited the replaced router is gone, installed once and stopped once |
| ManagerInvariant.StartApplyKeeps | src/backend.rs:300-302 | overwriting the config under the lock keeps the invariant |
| ManagerInvariant.DropApplyKeeps | src/backend.rs:218-236 | dropping an apply at either await keeps the invariant, with one more leaked router |
| ManagerInvariant.ReleaseKeeps | src/backend.rs:257-269 | an apply that ends leaves both slots as the config wants them, whatever was dropped before |
| ManagerInvariant.PublishKeeps | src/backend.rs:179-191 | a health publish keeps the invariant, the wakeup bookkeeping included |
| ProtocolInvariant.AcquireKeeps | src/backend.rs:300-302 | every use of the mutex gets the register's answer and keeps the invariant |
| ProtocolInvariant.CancelKeeps | src/backend.rs:218-236 | dropping any task at any await keeps the invariant |
| ProtocolInvariant.StepKeeps | src/backend.rs:156-357 | every step of every task, reader and environment keeps the invariant |
| ProtocolInvariant.RunInv | src/backend.rs:156-357 | the invariant holds in every state of every run |
| ProtocolTheorems.AgreementWhenFree | src/backend.rs:240-269 | unless an apply was dropped half way since the start or since any completed apply, whenever the lock is free each slot is None iff nothing on its list is enabled, and otherwise holds a router with one target for each enabled entry, in order, under the config's strategy |
| ProtocolOperations.EntryMoment | src/backend.rs:300-345 | each entry of the log was made when its task took the free lock, and is what the request of that task gets from the config of that moment |
| ProtocolOperations.LogIsRegister | src/backend.rs:300-345 | in lock order the answers are those of a sequential config register, and the config is that register |
| ProtocolOperations.OperationsLinearize | src/backend.rs:271-356 | at every moment after a task was given an operation, its entries are exactly those the operation calls for: the given config or the one read from the file uploaded once, the given toggle flipped once or missed, the config returned or written to the file seen; success, failure and refusal each say which |
| ProtocolOperations.AtMostOneChange | src/backend.rs:271-356 | no task changes the config more than once |
| ProtocolOperations.EntryAskedFor | src/backend.rs:271-356 | every entry was asked for by the operation its task was given before; a load uploads what it read from the file |
| ProtocolOperations.RealTimeOrder | src/backend.rs:300-345 | whatever a task did that has ended, failed lookups and cancelled applies included, comes in lock order before whatever a task started afterwards does |
| ProtocolOperations.GetConfigSeesApplied | src/backend.rs:308-310 | get_config returns a config that was fully applied, both slots in step, at a moment of the call, unless an apply was dropped half way with none completed since |
| ProtocolOperations.ToggledSinceUpload | src/backend.rs:288-305 | in any concurrent run the config is the last upload with each flag as it was last set since, entry by entry; that upload and those toggles are what operations asked for |
| ProtocolOperations.ViewsSinceUpload | src/backend.rs:340-356 | and the slots hold what one upload with those flags folded in would give |
| ProtocolOperations.FailedChangedNothing | src/backend.rs:272-298 | a task that failed at read, parse, name check or lookup never changed the config, in any run |
| ProtocolOperations.FailingStep | src/backend.rs:340-350 | the step at which a task fails leaves config, slots, routers and file as they were |
| ProtocolLives.RecordIsSteps | src/backend.rs:210-237 | what is recorded of a router is what the steps of the run did: how often it was stored, told to stop and published for, whether it stopped or its sender went away, and the health published last, all Unknown before that |
| ProtocolTheorems.RunningAccounted | src/backend.rs:210-237 | the running routers are the installed, the prepared, the stopping and the leaked ones |
| ProtocolTheorems.RouterLives | src/backend.rs:210-237 | at most 3 run (2 with the lock free) besides the leaked; at most one step of the run stores it and at most one stops it, after that, and none while it is in a slot |
| ProtocolTheorems.NoRouterLost | src/backend.rs:226-236 | with no apply dropped and the lock free every router ever built was installed, and is stopped once unless it serves |
| ProtocolTheorems.LeaksBounded | src/backend.rs:218-236 | each dropped apply leaves at most one unaccounted router, and nothing else leaves any |
| ProtocolTheorems.RunningBounded | src/backend.rs:210-237 | so at most 3 routers run, 2 with the lock free, and one more for each dropped apply |
| ProtocolTheorems.AlwaysSomePastConfig | src/backend.rs:288-302 | cancellations or not, names stay unique and each slot holds the enabled view of an accepted config that was current in some state of the run |
| ProtocolTheorems.ReleaseRepairs | src/backend.rs:257-269 | the next apply that completes puts both slots back in step, from any state of any run |
| ProtocolTheorems.LateDropHarmless | src/backend.rs:261-266 | an apply dropped while stopping the old fallback router has already put both slots in step |
| ProtocolTheorems.HealthGate | src/backend.rs:220-223 | no router in a slot has an Unknown backend, unless its watch sender went away at some step of the run |
| ProtocolTheorems.GateOpensIffPublishedSince | src/backend.rs:179-191 | with all states known the wait gets through iff something was published since it subscribed, in one step |
| ProtocolTheorems.HolderGoesOn | src/backend.rs:210-269 | an apply cannot go on exactly when it waits with nothing unseen on an open channel |
| ProtocolTheorems.NoDeadlock | src/backend.rs:210-357 | in any run a task that has not ended can go on, or the apply that holds the lock can, unless that waits with nothing unseen on an open channel |
| ProtocolTheorems.ReadersNeverWait | src/backend.rs:323-330 | a lock-free read can always take its next look |
| ProtocolTheorems.WaitMeasureFalls | src/backend.rs:181-190 | a look that does not open the gate, and a publish that clears an Unknown, lower the measure; a publish that clears none adds at most one |
| ProtocolReads.ReadersJustified | src/backend.rs:323-330 | what a lock-free read returns stood in its slot at a moment since the step that began the call; main had a backend in state Healthy when tested, fallback means main was absent or had none |
| ProtocolReads.TestTells | src/backend.rs:323-330 | the health test lets the loaded main router through iff there is one and the map published last for it has a Healthy backend |
| ProtocolReads.LastLookIff | src/backend.rs:323-330 | a call that ends at the fallback slot returns what one look at that moment would iff no healthy main router is there by then |
| ProtocolReads.TestIff | src/backend.rs:323-330 | a call that ends at the main router returns what one look at the health test would iff that router is still in the slot |
| ProtocolTraces.SwapOnce | src/backend.rs:257-266 | during an apply each slot switches at most once, old then new, main no later than fallback |
| ProtocolTraces.SwapWithoutGap | src/backend.rs:217-230 | a slot with backends enabled before and after an apply is never None during it |
| ProtocolTraces.LooksBounded | src/backend.rs:181-190 | the wait loop looks at most once for each version published since it last looked |
| ProtocolTraces.GateOpensIffPublishStep | src/backend.rs:179-191 | told by steps: with all states known and the sender there, the wait gets through iff some step since the subscribing one has published for its router |
| ProtocolTraces.GateStaysOpen | src/backend.rs:181-190 | once all states are known and something was published since the subscription, at every later moment the wait is over for good or its next look is enabled and ends it |
| ProtocolFile.WriteIsCurrentIff | src/backend.rs:313-320 | a write that lands, that of a dropped task included, leaves the applied config in the file iff the changes since its snapshot cancelled out |
| ProtocolFile.FileIsCurrentIff | src/backend.rs:313-320 | if step k was the last to write the file and nobody edited it since, at any later moment it holds the applied config iff the changes since the snapshot that step wrote cancelled out |
| ProtocolFile.PutsLeaveFileCurrentIff | src/api.rs:144-156 | after uploads only, that is iff no upload came after that snapshot or the last one was of the config written |
| ProtocolFile.FileHoldsPastConfig | src/backend.rs:313-320 | once a step has written the file, and unless it is edited from outside after that, it holds an accepted config that was current in some state before |
| ProtocolFile.ReportIsWrite | src/backend.rs:313-320 | a put or persist that reports success has written its snapshot at a step of its own, and one that reports that only the file failed has tried to |
| ProtocolFile.PutAloneIsCurrent | src/api.rs:129-159 | a put that runs alone and succeeds leaves config, file and both slots as it says, whatever the past of the run |
| ProtocolExamples.EarlyAnswerBlocks | src/backend.rs:179-181 | a run in which all health answers precede the subscription and the apply blocks |
| ProtocolExamples.DroppedApplyTears | src/backend.rs:218-236 | for every accepted config with a main view, a run that drops its apply and ends with the lock free, that config, an empty main slot and a leaked router |
| ProtocolExamples.LateWriterWins | src/api.rs:144-156 | for any two different configs with nothing enabled, a run in which both puts succeed and the file ends up with the first while the second is applied |
| ProtocolExamples.StaleFileHappens | src/api.rs:144-156 | such a run with two given configs |
| ProtocolExamples.TornRead | src/backend.rs:323-330 | for any config with fallback backends alone and any with main backends alone, a run in which a read answers None although one look would have found a router at every moment since it began |
| ProtocolExamples.TornReadHappens | src/backend.rs:323-330 | such a run with two given configs |
| BackendManagers.BackendManager.WaitHealthchecks | src/backend.rs:179-191 | stops at the first version with every state known, or when the sender is gone |
| BackendManagers.BackendManager.UpdateRouter | src/backend.rs:210-237 | the slot gets a new vetted router for the list, or None for an empty one; the old router is stopped once, when the slot no longer holds it |
| BackendManagers.BackendManager.Apply | src/backend.rs:240-269 | each slot is empty iff nothing on its list is enabled, and otherwise goes by the list; both old routers stopped once |
| BackendManagers.BackendManager.SetConfig | src/backend.rs:288-305 | succeeds iff names are unique; then the config is applied, otherwise nothing changes |
| BackendManagers.BackendManager.SetBackendState | src/backend.rs:340-356 | succeeds iff a main backend has the name; then its flag, and nothing else of the config, is set and applied, otherwise nothing changes |
| BackendManagers.BackendManager.LoadConfig | src/backend.rs:272-285 | succeeds iff the file is there, parses and has unique names; otherwise nothing changes |
| BackendManagers.BackendManager.PersistConfig | src/backend.rs:313-320 | writes the printed config, or leaves the file alone |
| BackendManagers.BackendManager.Run | src/backend.rs:361-383 | the config after any sequence of hangups with the files they found, until shutdown |
| BackendManagers.NoGoodReload | src/backend.rs:361-383 | with no hangup before the shutdown that found a file that is there, parses and has unique names, the config stays |
| BackendManagers.LastGoodReload | src/backend.rs:361-383 | otherwise it is what the file held at the last such hangup |
| BackendManagers.BackendManager.GetBackendRouter | src/backend.rs:323-330 | the main router iff one of its states is Healthy, else what the fallback slot holds |
| BackendManagers.HealthyOf | src/backend.rs:333-337 | the listed nodes are exactly the backends whose state is Healthy |
| Api.ConfigPut | src/api.rs:129-159 | config, file and status after a put, each failure included |
| Api.JsonFirst | src/api.rs:135-136 | a body is read as JSON, and as YAML only if it is not JSON |
| Api.PutRefused | src/api.rs:135-149 | a body that is neither, or whose names are not unique, changes nothing and gets 400 |
| Api.PutTaken | src/api.rs:144-159 | any other is applied; 200 with the printed config in the file, or 500 with the file as it was |
| Api.BackendAction | src/api.rs:62-81 | 200 iff the verb is enable or disable and a backend has the name; then its flag is set accordingly and nothing else, otherwise 400 and nothing changes |
| Api.ActionTaken | src/api.rs:66-75 | enable sets the flag of the named backend, disable clears it, nothing else changes: 200 |
| Api.ActionRefused | src/api.rs:70-78 | another verb or an unknown name changes nothing: 400 |
| Api.ConfigReload | src/api.rs:100-112 | config and status after a reload |
| Api.ReloadInFull | src/api.rs:100-112 | the file stays; 200 with its config applied if it is there, parses and has unique names, else 500 with nothing changed |
| Api.HealthStatus | src/api.rs:54-60 | 204 iff the main router has a healthy node, else 503 |
| Api.PutSurvivesActions | src/api.rs:144-156 | after a successful put and any enables and disables a reload restores exactly the put config |
| Collector.Collect | src/routing.rs:151-163 | the loop answers what the frames determine, and never with more than the limit |
| Collector.CollectedAtStop | src/routing.rs:151-163 | a collection that stops answers with the reason of the one frame it stops at |
| Collector.OverLimitIff | src/routing.rs:151-163 | the limiter fires iff some intact prefix already holds too many bytes |
| Collector.TruthfulNeverOverLimit | src/routing.rs:131-151 | it never fires on a body whose announced size is true |
| Retry.FirstOk | src/routing.rs:231-256 | the first success among n attempts |
| Handler.ExecuteOn | src/backend.rs:428-478 | the backend goes into the context, the rewritten request to the client, a bad URI to an error without a call |
| Handler.Execute | src/routing.rs:235 | one call of the captured router takes calls, requests sent and context one attempt further |
| Handler.BufferResponse | src/routing.rs:124-171 | the delivered response and the context flag |
| Handler.AfterFailure | src/routing.rs:236-246 | one sleep for each failure; the delay doubles after backend errors only, and may overflow |
| Handler.RetryLoop | src/routing.rs:228-262 | the loop brings about exactly what the specification of a buffered request says |
| Handler.Handle | src/routing.rs:173-263 | the handler brings about exactly what the specification of a request says |
| HandlerTheorems.CallsAreFirstOk | src/routing.rs:231-262 | calls stop at the first success or at retry_attempts; that response or the last error is returned |
| HandlerTheorems.BackoffClosedForm | src/routing.rs:236-245 | k backend errors and m vacancies sleep interval * (2^k - 1) + m * the other interval, in any order |
| HandlerTheorems.TotalSleep | src/routing.rs:228-256 | the same for everything a request sleeps, k being the failed attempts for which a backend was picked and m those without one, k + m at most retry_attempts |
| HandlerTheorems.EachSleep | src/routing.rs:236-245 | each sleep is the fixed interval after a vacancy, else the interval doubled once for each backend error before it |
| HandlerTheorems.PanicsIffDelayOverflows | src/routing.rs:243-244 | the doubling overflows iff the delay due does not fit; a sleep of over half the maximum is done by then |
| HandlerTheorems.NeverPanicsIff | src/routing.rs:228-256 | no world makes a buffered request overflow the delay iff interval * 2^retry_attempts fits a Duration |
| HandlerTheorems.HandlerNeverPanicsIff | src/routing.rs:187-256 | no request in any world makes the handler overflow iff the settings never buffer requests or that product fits |
| HandlerTheorems.RefusalsPanic | src/routing.rs:236-244 | where it does not fit, a backend that refuses every call makes it overflow |
| HandlerTheorems.NeverReplayed | src/routing.rs:187-233 | an unbuffered body is handed to a backend at most once, as it is; more calls mean a body collected whole, the same bytes each time |
| HandlerTheorems.AttemptsAlike | src/routing.rs:182-233 | every attempt goes through the one captured router with original path, the backend's authority, HTTP/1.1 and, unless its own connection field names it, the forwarded host and every other header of the client |
| HandlerTheorems.HostArrivesIff | src/backend.rs:466-476 | with stripping to the letter of section 7.6.1 of RFC 9110 the forwarded host arrives iff the client's connection field does not name it |
| HandlerAnswers.HandOffs | src/backend.rs:435-477 | each call that picks an addressable backend hands it exactly one request, in the order of the calls, and no other call hands over any |
| HandlerAnswers.CollectedIff | src/routing.rs:187-226 | a request body is collected iff its size is announced and within the limit, retries or buffering are asked for, it can be read, and there are an authority and a router |
| HandlerAnswers.EarlyRefusals | src/routing.rs:174-221 | 400 without an authority, 503 without a router, 408 for a body that should be collected and cannot be; no call is made, and only then |
| HandlerAnswers.UnbufferedAnswer | src/routing.rs:202-216 | one call; what the backend answers is delivered, a vacancy is a 503, an unusable URI or a refusal a 502 that says so |
| HandlerAnswers.BufferedAnswer | src/routing.rs:228-262 | all calls but the last failed; the last one's response is delivered with the number of failures, or all allowed calls were made and the error is that of the last |
| HandlerAnswers.DeliveredInFull | src/routing.rs:124-171 | a response is collected iff buffering is on and its size announced and within the limit; 504 for a stall, 502 for a break or one byte too many, by the frame at which collecting stopped |
| HandlerTheorems.LastPickedIsLast | src/backend.rs:435-438 | the last selected backend survives later attempts that select none |
| HandlerTheorems.ContextNamesLastBackend | src/backend.rs:435-438 | the final context names the backend of the last attempt that selected one |
| HandlerTheorems.ResponseTransparent | src/routing.rs:124-171 | same status, headers, extensions and data when the body arrives whole within the limit, otherwise the error that says why |
| HandlerTheorems.TruthfulResponse | src/routing.rs:130-158 | with a true size an unbroken body always arrives |
| HandlerTheorems.TrailersSurviveIff | src/routing.rs:157-170 | trailers survive iff the response was not buffered or had none |
| Metrics.FinishRequest | src/middleware/metrics.rs:258-275 | takes both extensions off the response and sends status, cause, context and number of retries |
| Metrics.StepKeeps | src/middleware/metrics.rs:140-166 | every step keeps the tallies equal to the sets of requests counted and observed |
| Metrics.ExactlyOnce | src/middleware/metrics.rs:140-166 | over every run with drops: sum of counters + pending loggers = requests, each label counts exactly those due under it |
| Metrics.AllDone | src/middleware/metrics.rs:161-166 | once all loggers are done the histogram agrees with the counter and both count every request |
| Metrics.StateIsSteps | src/middleware/metrics.rs:140-166 | the requests are exactly those spawned, with the labels given then, and completed, dropped, counted and observed exactly as steps of the run did |
| Metrics.CountedAs | src/middleware/metrics.rs:144-159 | told by steps: a request completed is counted under the labels it was spawned with, its own status, the name of its backend or "unknown", and retried iff its number is not 0; one dropped under 408, "unknown", not retried; one of the two has happened, not both |
| Metrics.RetriedLabel | src/routing.rs:252-262 | "yes" iff a buffered request failed, then succeeded and was delivered unreplaced; the number is calls - 1, otherwise 0 |
| Metrics.HandledIsCountedAs | src/routing.rs:173-263 | what the handler answers is counted under the status of that answer and the name of the backend picked last, "unknown" if none was |

## Left out

- The library router (weighted round robin, least outstanding requests, check scheduling, HTTP clients) is an
  environment; `Protocol` and `Retry` are not tied to each other beyond the router captured at entry.
- That a backend picked in an attempt is one of the captured router's targets is an assumption on the library that no
  result needs.
- UpdateRouter: does not model cancellation or interleaving, because `manager.dfy` is the view of one caller at a time;
  both are in `protocol.dfy`.
- WaitHealthchecks: does not model waiting for ever, because a method of `manager.dfy` takes an exhausted list of
  versions for a closed channel; when the wait blocks is said in `protocol.dfy` (`ProtocolTheorems.HolderGoesOn`).
- Histogram values, durations, response sizes, log lines and Vector events: only which labels are counted is modelled.
- Runtime shutdown, which drops logger tasks, and wrap-around of the 64-bit counters.
- TLS, ACME, DNS, WAF, SEV-SNP, GeoIP, Prometheus encoding, CLI parsing and logging set-up: wiring and foreign calls.
- Bearer token checks and the API host dispatch: single-branch facts.
- URL syntax and multi-valued details of headers: URIs and headers are plain values.
