# xstate-workflow core, modelled in Dafny

The repository runs a long-lived workflow on Cloudflare Workers. An xstate
machine (`myMachine`) decides where the workflow is. Each activation of the
workflow works through these stages:

- It reads a pending event and a persisted snapshot from a durable object's storage.
- It rebuilds the actor from the snapshot.
- It feeds the actor the event, but only if the current state can take it.
- It writes the new snapshot back and clears the event.
- It then either finishes, or runs a step that enqueues a job and/or pauses
  until an external event arrives.

Two durable objects sit beside it:

- a broadcaster (`WebSocketDO`) that holds the websockets, the id list and the key-value pairs;
- an instance store (`XstateWorkflowDO`) that keeps one list of instance records and pushes updates to its own sockets.

The model has seven modules, one per file:

- `Machine` (`machine.dfy`): the statechart as datatypes and pure functions.
  `Step` is one macrostep, and `Settle` follows the eventless `always` transition.
- `JsSet` (`js_set.dfy`): a JavaScript `Set` as the sequence of its members in insertion order.
- `Sockets` (`sockets.dfy`): the `forEach`/`readyState === OPEN`/`send` fan-out loop.
- `InstanceStore` (`instance_store.dfy`):
  - the record list operations (find, upsert-merge, remove) as functions;
  - JavaScript's object spread, stated as property maps;
  - class `XstateWorkflowDO`, with the storage map, the accepted sockets and a log of sends as fields.
- `Registry` (`registry.dfy`): class `WebSocketDO`, with its socket set, its storage map and a log of sends.
  It also holds the pure id-list updates that `addWorkflowInstanceId` and `removeWorkflowInstanceId` write.
- `Orchestrator` (`orchestrator.dfy`): one activation of `XstateWorkflow.run`.
  - `RunSpec` is the reference definition: the storage it leaves, the calls it makes in order, and what it returns.
  - Class `XstateWorkflow` has the broadcaster as `stub` and an `effects` trace.
    Its `Run` method performs the storage calls and broadcasts, and is proved equal to `RunSpec`.
- `Wrappers` (`wrappers.dfy`): `Option`.

Some things the code depends on are parameters:

- the clock: `now`, and `time` for the broadcasts;
- `crypto.randomUUID`: `runId`;
- which sockets are OPEN: `open`;
- which request is an upgrade: `upgrade`.

The orchestrator talks to the durable object bound as `XSTATE_DO`, which `server/bindings.ts` declares as `WebSocketDO`.
So `Run` reads and writes `WebSocketDO`'s storage.

The step name and the queue notice are exactly what the code builds:

- The step name is `step: ` + `JSON.stringify(snapshot.value)` + ` ` + runId + ` `.
  So the state's name appears in double quotes, for example `step: "Processing" <runId> `.
- The queue notice `Sending to queue: "Processing" <runId>` quotes the name in the same way.

How a resumed actor resolves the promise at `server/xstateWorkflow.ts:42-77` follows the xstate v5 actor semantics:

- The `completed` outcome never arises. On a snapshot already in its final state, `subscribe` calls `complete` at once.
  That callback reads `snapshot` (line 57), but the `const snapshot` of line 62 is not yet initialised, so the read throws.
  xstate reports the throw instead of passing it back, and the promise goes on as for any other snapshot.
  A final snapshot therefore resolves `next` without a pending event and "Invalid Event" with one, and the `matches("Processed")` check makes the run succeed either way.
- Without a pending event the promise resolves `next`.
  The later `snapshot.can(null)` throws inside the executor, after the promise has settled, so the throw has no effect.
- An accepted event notifies `next` before any `complete`, even when it reaches `Processed`.
  The `snapshot.matches("Processed")` check then catches that case.
- A rejected event resolves with the string `"Invalid Event"` as its error.

## Model

| member | source | states |
|---|---|---|
| Machine.Started | server/machines/myMachine.ts:12-21 | a fresh actor starts from `Unprocessed` with the empty context; after its `always` transition it rests in `Processing` and is active |
| Machine.ParseState | server/machines/myMachine.ts:18-41 | a state name parses only to the state with that name |
| Machine.StateNamesRoundTrip | server/machines/myMachine.ts:18-41 | every one of the four state names parses back to its state |
| Machine.ParseEvent | server/machines/myMachine.ts:5 | an event tag parses only to the event with that tag |
| Machine.EventAlphabet | server/machines/myMachine.ts:5 | the tags that parse are exactly `process`, `processed` and `received`, and each event's tag parses back to it |
| Machine.Settle | server/machines/myMachine.ts:19-21 | following eventless transitions ends in a state that has none, never moves backwards, and leaves a state without one where it is |
| Machine.SettledIsNeverUnprocessed | server/machines/myMachine.ts:19-21 | no settled state is `Unprocessed`, and `Unprocessed` settles in `Processing` |
| Machine.On | server/machines/myMachine.ts:27-40 | an `on` entry exists only in a state that is not final, and leads one stage further along |
| Machine.Step | server/machines/myMachine.ts:27-40 | a macrostep exists exactly when the `on` table has an entry; its result has no eventless transition and is strictly further along |
| Machine.ProcessingTakesProcessed | server/machines/myMachine.ts:27-34 | `processed` in `Processing` is a re-entering transition to `Waiting Input` that exits `Processing` and enters `Waiting Input` |
| Machine.WaitingInputTakesReceived | server/machines/myMachine.ts:36-40 | `received` in `Waiting Input` leads to `Processed` |
| Machine.FinalIsTerminal | server/machines/myMachine.ts:23-25 | `Processed` is final, and neither an event nor an eventless transition leaves it |
| Machine.ProcessIsNeverAccepted | server/machines/myMachine.ts:5-41 | no state can take `process` |
| Machine.Can | server/xstateWorkflow.ts:66 | `snapshot.can(event)` holds exactly when the state's `on` table has an entry for the event, so never in the final state |
| Machine.Deliver | server/xstateWorkflow.ts:67 | `actor.send` changes the state exactly when the state can take the event; it never moves back and, from a settled state, never rests on an eventless state |
| Machine.Replay | server/machines/myMachine.ts:18-41 | a sequence of sends from a settled state ends in a settled state |
| Machine.CanExactly | server/machines/myMachine.ts:27-40 | `can` holds for exactly the two pairs in the `on` tables |
| Machine.FinalIsAbsorbing | server/machines/myMachine.ts:23-25 | any sequence of events sent in `Processed` leaves it in `Processed` |
| Machine.ReplayAdvances | server/machines/myMachine.ts:18-41 | sending events never moves the machine back |
| Machine.ReachableStates | server/machines/myMachine.ts:18-41 | every state reachable from a started machine is `Processing`, `Waiting Input` or `Processed`, and so has a declared name |
| JsSet.Add | server/webSocketDo.ts:18 | `add` keeps a set duplicate-free, leaves it unchanged for a member and appends a new element |
| JsSet.FromArray | server/webSocketDo.ts:51 | `new Set(array)` has no duplicates |
| JsSet.FromArrayMembers | server/webSocketDo.ts:51 | `new Set(array)` has exactly the array's elements |
| JsSet.FromArrayOfSet | server/webSocketDo.ts:51-53 | `new Set` of a duplicate-free array is that array, in its order |
| JsSet.Delete | server/webSocketDo.ts:63 | `delete` never grows the set |
| JsSet.DeleteMembers | server/webSocketDo.ts:63 | after `delete(x)` the members are the old ones except `x` |
| JsSet.DeleteAbsent | server/webSocketDo.ts:63 | deleting a non-member changes nothing |
| JsSet.DeleteMember | server/webSocketDo.ts:63 | deleting a member removes its one occurrence and keeps the rest in order |
| JsSet.DeleteKeepsNoDuplicates | server/webSocketDo.ts:63 | deleting keeps a set duplicate-free |
| JsSet.DeleteUndoesAdd | server/webSocketDo.ts:62-64 | adding a new element and deleting it gives back the set |
| Sockets.Fanout | server/webSocketDo.ts:69-78 | the loop makes no more sends than there are sockets, and each carries the given message to a registered socket that is open |
| Sockets.FanoutOncePerOpenSocket | server/webSocketDo.ts:69-78 | over distinct sockets, each registered open socket receives exactly one send and every other socket none |
| InstanceStore.IndexOf | server/workflowDO.ts:86 | `findIndex` gives the first position holding the id, or -1 exactly when no record has it |
| InstanceStore.FindIndex | server/workflowDO.ts:86 | the search loop computes `findIndex` |
| InstanceStore.Lookup | server/workflowDO.ts:56 | `find` gives nothing exactly when no record has the id, and otherwise the listed record with that id that no earlier record shares |
| InstanceStore.UpsertList | server/workflowDO.ts:56-75 | the upserted record's position lies inside the written list |
| InstanceStore.Merge | server/workflowDO.ts:69-73 | the merged record is updated `now`, and keeps its id and creation time unless `data` carries them; the rest is stated by `MergedProperty` and `MergeIsSpread` |
| InstanceStore.MergedProperty | server/workflowDO.ts:69-73 | each property of the merged record is `now` for `updatedAt`, else `data`'s where `data` has it, else the old record's |
| InstanceStore.MergeIsSpread | server/workflowDO.ts:69-73 | the merged record, as a JavaScript object, is the old record's properties overridden by `data`'s and then by `updatedAt: now` |
| InstanceStore.UpsertAppends | server/workflowDO.ts:56-67 | an id not in the list appends one record, built from `{id, createdAt: now, updatedAt: now}`, and keeps the old list as a prefix |
| InstanceStore.UpsertReplaces | server/workflowDO.ts:56-75 | an id in the list keeps the length and every other record, and merges `data` into its first record |
| InstanceStore.UpsertedFields | server/workflowDO.ts:69-73 | the upserted record holds every property of `data`, keeps the old properties `data` lacks, and has `updatedAt == now` |
| InstanceStore.UpsertKeepsIdsUnique | server/workflowDO.ts:56-67 | with unique ids before, and no different `id` in `data`, ids stay unique |
| InstanceStore.LookupAfterUpsert | server/workflowDO.ts:56-77 | when `data` carries no different `id`, after an upsert `find` by its id gives exactly the record the upsert returned |
| InstanceStore.LookupOtherAfterUpsert | server/workflowDO.ts:56-75 | when `data`'s `id` is not `other`, an upsert leaves what every other id `other` finds unchanged |
| InstanceStore.RemoveFirst | server/workflowDO.ts:86-89 | the written list is one record shorter exactly when the id is present, and holds no record the old list did not |
| InstanceStore.RemoveAbsent | server/workflowDO.ts:86-91 | removing an absent id writes back the same list |
| InstanceStore.RemovePresent | server/workflowDO.ts:86-89 | removing a present id drops its first record and keeps all others in order |
| InstanceStore.LookupAfterRemove | server/workflowDO.ts:86-89 | with unique ids, a removed id is no longer found, and ids stay unique |
| InstanceStore.LookupOtherAfterRemove | server/workflowDO.ts:86-89 | removing one id leaves what every other id finds unchanged |
| InstanceStore.RemoveUndoesInsert | server/workflowDO.ts:49-92 | upserting a new id and removing it gives back the original list |
| InstanceStore.EventPatch | server/workflowDO.ts:121-123 | `{...event}` as a patch has the event's fields and its `workflowInstanceId` |
| InstanceStore.XstateWorkflowDO.constructor | server/workflowDO.ts:13-15 | a (re-)created object sees the durable storage and the hibernated accepted sockets as it finds them, and has made no sends |
| InstanceStore.XstateWorkflowDO.Fetch | server/workflowDO.ts:17-35 | an upgrade accepts the server socket and answers 101; any other request answers 400 and changes nothing |
| InstanceStore.XstateWorkflowDO.UpsertWorkflowInstance | server/workflowDO.ts:49-78 | it writes the upserted list (nothing stored read as `[]`) and returns the record exactly as stored |
| InstanceStore.XstateWorkflowDO.RemoveWorkflowInstance | server/workflowDO.ts:80-92 | with nothing stored it writes nothing; otherwise it writes the list without the id's first record |
| InstanceStore.XstateWorkflowDO.GetWorkflowInstances | server/workflowDO.ts:94-101 | it returns `[]` when nothing is stored, and otherwise the stored list |
| InstanceStore.XstateWorkflowDO.GetWorkflowInstance | server/workflowDO.ts:103-116 | it returns null exactly when no record has the id, and otherwise the first record with it |
| InstanceStore.XstateWorkflowDO.SendToOpen | server/workflowDO.ts:125-134 | the send loop appends the fan-out of the record over the accepted sockets to the sends, and changes nothing else |
| InstanceStore.XstateWorkflowDO.Broadcast | server/workflowDO.ts:118-135 | it upserts the event's fields, including `workflowInstanceId`, then sends the merged record exactly once to each open accepted socket and to no other |
| Registry.ReadAfterWrite | server/webSocketDo.ts:34-44 | through `storage.get`, a key reads back the value last put under it and nothing after a delete, and a write or delete leaves every other key's read unchanged |
| Registry.Stamp | server/webSocketDo.ts:73-76 | `{...event, time}` has the event's properties plus `time`, whose value overrides the event's |
| Registry.IdsAfterAdd | server/webSocketDo.ts:46-55 | with nothing stored the list is `[id]`; whatever the list written, it has no duplicates |
| Registry.AddKeepsOrder | server/webSocketDo.ts:51-53 | over a duplicate-free list, adding keeps the old ids in order and appends a new id at the end |
| Registry.AddMembers | server/webSocketDo.ts:51-53 | after adding, the list holds exactly the old ids and the new one |
| Registry.AddIsIdempotent | server/webSocketDo.ts:51-53 | adding an id to the list an add wrote changes nothing |
| Registry.IdsAfterRemove | server/webSocketDo.ts:57-65 | with nothing stored, no list is written |
| Registry.RemoveKeepsOthers | server/webSocketDo.ts:62-64 | over a duplicate-free list, removing deletes only that id and keeps the others in order |
| Registry.RemoveAbsentId | server/webSocketDo.ts:62-64 | removing an absent id writes back the same list |
| Registry.RemoveResult | server/webSocketDo.ts:62-64 | the list written is duplicate-free and holds the old ids except the removed one |
| Registry.RemoveUndoesAdd | server/webSocketDo.ts:46-64 | removing a freshly added id gives back the list it was added to |
| Registry.WebSocketDO.constructor | server/webSocketDo.ts:6-12 | a (re-)created object starts with an empty `sockets` set, sees the durable storage as it finds it, and has made no sends |
| Registry.WebSocketDO.Fetch | server/webSocketDo.ts:14-32 | an upgrade adds the server socket to `sockets` and answers 101; any other request answers 400 and changes nothing |
| Registry.WebSocketDO.Close | server/webSocketDo.ts:20 | the close listener removes the socket from `sockets` and keeps it duplicate-free |
| Registry.WebSocketDO.KvSet | server/webSocketDo.ts:34-36 | `kvSet` stores the value under the key, so `kvGet` of it gives the value, and every other key reads as before |
| Registry.WebSocketDO.KvGet | server/webSocketDo.ts:38-40 | `kvGet` finds a value exactly for a stored key, and gives the value stored there; what it reads after a `kvSet` or `kvDelete` is stated by their ensures |
| Registry.WebSocketDO.KvDelete | server/webSocketDo.ts:42-44 | `kvDelete` removes the key, so `kvGet` of it gives nothing, and every other key reads as before |
| Registry.WebSocketDO.AddWorkflowInstanceId | server/webSocketDo.ts:46-55 | it writes the added-to list, or fails without writing when the stored value is not an id list |
| Registry.WebSocketDO.RemoveWorkflowInstanceId | server/webSocketDo.ts:57-65 | with nothing stored it does nothing; otherwise it writes the list without the id |
| Registry.WebSocketDO.Broadcast | server/webSocketDo.ts:67-79 | each registered open socket is sent the event plus `time` exactly once, in registration order, no other socket is sent anything, and storage and sockets are unchanged |
| Orchestrator.KeysAreDistinct | server/xstateWorkflow.ts:27-31 | the `<id>:event` and `<id>:snapshot` keys never equal one another, the id list's key, or another instance's keys |
| Orchestrator.ReadPending | server/xstateWorkflow.ts:27-28 | no stored event reads as `null`; a stored event object reads as its `type`; anything else is not an event |
| Orchestrator.Accepts | server/xstateWorkflow.ts:66 | `snapshot.can(xEvent)` holds exactly when the pending value is an event of the machine that `Machine.Can` allows in the state, so never for no event or in the final state |
| Orchestrator.Restore | server/xstateWorkflow.ts:30-35 | the actor resumes from the stored snapshot when there is one, and otherwise starts afresh in `Processing` |
| Orchestrator.Activate | server/xstateWorkflow.ts:42-77 | the promise never resolves `completed`; it errors with "Invalid Event" exactly for a pending event the state cannot take, and moves the state only by an accepted transition |
| Orchestrator.MessageAsWritten | server/xstateWorkflow.ts:104-105 | `error.message` is present exactly on an error object, and then is its message; on a thrown string it is `undefined` |
| Orchestrator.Message | server/xstateWorkflow.ts:100-105 | the corrected message: the error object's message where the source has one, and a thrown string as that string |
| Orchestrator.Classify | server/xstateWorkflow.ts:92-108 | the outcome checks run terminal first, then error with its message, then next |
| Orchestrator.StepName | server/xstateWorkflow.ts:109 | the step name starts with `step: "` and ends with the run id and a space |
| Orchestrator.StepNamesDistinct | server/xstateWorkflow.ts:109 | within one run, different states have different step names |
| Orchestrator.StepPlan | server/xstateWorkflow.ts:108-137 | `Processing` and `Waiting Input` each run exactly one step, which starts with its named `step.do` and ends with a pause; only `Processing` sends to the queue; other states run none |
| Orchestrator.StepPlanMessages | server/xstateWorkflow.ts:111-135 | a step broadcasts one message: the queue notice in `Processing`, the step's name in `Waiting Input` |
| Orchestrator.Resolve | server/xstateWorkflow.ts:27-77 | the activation's promise, from the stored keys, never resolves `completed`, and with no pending event resolves `next` on the restored snapshot |
| Orchestrator.RunSpec | server/xstateWorkflow.ts:15-138 | the reference activation never leaves the event key behind and adds no key but the snapshot key; the lemmas below state the rest |
| Orchestrator.Conclude | server/xstateWorkflow.ts:92-137 | a result drops the snapshot and announces one message without a step; `{success: true}` exactly for `Processed` or `completed`; `{success: false}` exactly for an error, with the corrected message; otherwise the state's step |
| Orchestrator.RunStorage | server/xstateWorkflow.ts:79-106 | after a run the event key is gone, the snapshot key holds the resolved snapshot unless the run returned a result, and every other key is as before |
| Orchestrator.RunConsumesPendingEvent | server/xstateWorkflow.ts:79-89 | on every path the first call writes the resulting snapshot back, the second deletes the pending event, and the event is gone afterwards |
| Orchestrator.RunTouchesOnlyItsKeys | server/xstateWorkflow.ts:27-106 | an activation changes no key but its instance's two, so the id list is untouched |
| Orchestrator.RunWithoutEvent | server/xstateWorkflow.ts:64 | without a pending event an active snapshot is kept unchanged and the run returns nothing |
| Orchestrator.RunRejectsInvalidEvent | server/xstateWorkflow.ts:66-106 | an event the state cannot take is not sent; the state stays, the run fails with "Invalid Event", both keys are cleared and no step runs |
| Orchestrator.InvalidEventMessageLostAsWritten | server/xstateWorkflow.ts:75-105 | read as the source reads it, the rejected event's error has no message: the run returns `error: undefined` and broadcasts "Workflow failed: undefined", where the corrected message is "Invalid Event" |
| Orchestrator.RunAcceptsEvent | server/xstateWorkflow.ts:66-67 | an accepted event persists the transition's target, and the run succeeds exactly when that target is `Processed` |
| Orchestrator.RunOutcomesExclusive | server/xstateWorkflow.ts:92-137 | a run returns a result and runs no step, dropping the snapshot; or it returns nothing, runs at most one step and keeps the snapshot |
| Orchestrator.RunKeepsSnapshotsResumable | server/xstateWorkflow.ts:79-83 | activations never store an `Unprocessed` snapshot, and one that returns nothing leaves `Processing` or `Waiting Input` stored |
| Orchestrator.FirstRunEnqueues | server/xstateWorkflow.ts:108-127 | with nothing stored, a run persists `Processing` and runs the queue-send-and-pause step |
| Orchestrator.ProcessedRunWaits | server/xstateWorkflow.ts:128-135 | `processed` on a `Processing` snapshot persists `Waiting Input` and runs the pause step |
| Orchestrator.ReceivedRunCompletes | server/xstateWorkflow.ts:92-98 | `received` on a `Waiting Input` snapshot succeeds and clears both of the instance's keys |
| Orchestrator.HappyPath | server/xstateWorkflow.ts:15-138 | three activations, fed `processed` and then `received`, enqueue and pause, wait, and then succeed, leaving storage as they found it |
| Orchestrator.XstateWorkflow.constructor | server/xstateWorkflow.ts:9-13 | a new workflow talks to the given broadcaster and has made no calls |
| Orchestrator.XstateWorkflow.Send | server/xstateWorkflow.ts:21-24 | the broadcaster sends `{id, message}`, stamped with `time`, to each open socket, and storage is unchanged |
| Orchestrator.XstateWorkflow.Announce | server/xstateWorkflow.ts:18-25 | `broadcast(message)` has the broadcaster send `{id, message}` to each open socket, and changes no storage |
| Orchestrator.XstateWorkflow.RunStep | server/xstateWorkflow.ts:108-137 | it records the state's step and sends that step's broadcasts, without touching storage |
| Orchestrator.XstateWorkflow.Persist | server/xstateWorkflow.ts:27-89 | it resolves the activation from the stored keys, writes the snapshot back and deletes the event |
| Orchestrator.XstateWorkflow.Finish | server/xstateWorkflow.ts:92-137 | it drops the snapshot and announces the result, or runs the step, as the ending prescribes, with the corrected failure message |
| Orchestrator.XstateWorkflow.Run | server/xstateWorkflow.ts:15-138 | storage, the calls made, the broadcasts sent and the result are exactly those of the reference activation, with the corrected failure message |

## Left out

- server/workflow.ts is not part of this model. It is another run loop, built on `step.waitForEvent`, retries and `Math.random` failures, for states the machine shown here does not have.
- server/index.ts, src/index.ts, the static scripts, src/webSocketDo.ts, server/utils.ts and vite.config.ts are not part of this model. They are routing, the queue consumer, UI, a duplicate of the broadcaster, timers and build configuration.
- The runtime gives `step.do` an at-most-once guarantee. The model leaves this out: steps, queue sends and pauses are entries in the `effects` trace, and memoisation across replays is not modelled.
- The `q` promise chain (server/xstateWorkflow.ts:13-25) is not modelled. It serialises the broadcasts, and each one is awaited before the run goes on, so the model performs them in call order.
- The one-second delays before a broadcast (`setTimeout` and `sleepDev`) are not modelled. The `console.log` calls are not modelled either.
- JSON serialisation of stored values is not modelled. Storage holds values structurally: an id list, an event by its `type`, a snapshot.
- The persisted snapshot is reduced to its state value and context. Status, history and the rest of xstate's persisted-snapshot format are left out.
- `Orchestrator.Restore`: a value under the snapshot key that is not a snapshot is read as no snapshot. The model does not follow what xstate would make of a malformed snapshot.
- `Orchestrator.ReadPending`: any stored value that is not an event object is one that no state can take. Any other event property besides `type` is ignored.
- `Registry.WebSocketDO.AddWorkflowInstanceId`: when the stored value is an object, such as the snapshot written at `server/xstateWorkflow.ts:80-83` or an event as `src/index.ts:24` writes it, `new Set` throws; the model reports `ok == false` and writes nothing. A stored JSON `null`, string or number is not representable in `Value`, so the model does not follow `new Set(null)` (an empty set, giving `[id]`) or `new Set` of a string (its characters).
- `Registry.WebSocketDO.RemoveWorkflowInstanceId`: when the stored value is an object, `new Set` throws; the model reports `ok == false` and writes nothing. For the same reason as above, the model does not follow a stored JSON `null` (which writes `[]`), string or number.
- `InstanceStore`: a patch property that is present with the value `undefined`, on `id`, `createdAt` or `updatedAt`, is modelled as absent. Nullable properties do distinguish present `null`/`undefined` from absent.
- Dates are integers (`Time`). `Registry.WebSocketDO.Broadcast` stamps every socket with the same `time`, and every broadcast of one activation uses the same `time`, where the source reads `new Date()` once per socket inside the `forEach` callback.
- Broadcast events (`Registry.Notice`) are modelled with string-valued properties only, so the `payload: unknown` that `server/webSocketDo.ts:67` declares is not representable. The one caller in this model sends `{id, message}`, both strings.
- The OPEN state of sockets is the `open` parameter. Which handles exist, and hibernation, belong to the runtime.
- `Orchestrator.Activate`: the report of the throw in the `complete` callback is not modelled. The model follows xstate v5, which reports an observer's throw asynchronously and does not pass it back to `subscribe`; a release that passed it back would reject the promise, and the run would throw before persisting anything.
- `Orchestrator.Conclude`: on a rejected event it returns `Failed(Some("Invalid Event"))` and broadcasts "Workflow failed: Invalid Event", the corrected message of the finding below. As written, the source returns `error: undefined` and broadcasts "Workflow failed: undefined"; `Orchestrator.InvalidEventMessageLostAsWritten` states that reading.
- `Orchestrator.Message`: it gives a thrown string as its own message, the corrected reading. As written, `error.message` of a thrown string is `undefined` (`Orchestrator.MessageAsWritten`).
- `Orchestrator.XstateWorkflow.Finish`: its failure path announces and returns the corrected message, not the source's `undefined`, as `Conclude` does.
- `Orchestrator.XstateWorkflow.Run`: it equals `RunSpec`, whose failure path reports the corrected message, not the source's `undefined`, as `Conclude` does.
- `Orchestrator.RunSpec`: its failure path reports the corrected message, not the source's `undefined`, as `Conclude` does.
- `InstanceStore.UpsertList`: its own contract states only where the record lands. What the list holds is stated by the upsert lemmas.
- `JsSet.Delete`: its own contract states only that the set does not grow. What the set holds is stated by `JsSet.DeleteMembers` and `JsSet.DeleteMember`.

## Findings

| source | as written | input that shows it | evidently intended | confidence | as-written member | corrected member |
|---|---|---|---|---|---|---|
| server/xstateWorkflow.ts:104-105 | a rejected event resolves with the string "Invalid Event" as its error (line 75); the failure path reads `subEvent.error.message`, which is `undefined` on a string, so the run returns `{success: false, error: undefined}` and broadcasts "Workflow failed: undefined" | a stored `Waiting Input` snapshot with the pending event `{type: "processed"}` | the run fails with `error: "Invalid Event"` and broadcasts "Workflow failed: Invalid Event" | not executed | Orchestrator.InvalidEventMessageLostAsWritten | Orchestrator.RunRejectsInvalidEvent |
