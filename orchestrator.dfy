/**
 * One activation of the xstate workflow: read the pending event and the
 * persisted snapshot, rebuild the actor, feed it the event if its state can
 * take it, persist the result, and then finish or run the step that pauses
 * the workflow until the next event.
 */
module Orchestrator {
  import opened Wrappers
  import opened Machine
  import opened Registry
  import opened Sockets

  function EventKey(instanceId: string): string {
    instanceId + ":event"
  }

  function SnapshotKey(instanceId: string): string {
    instanceId + ":snapshot"
  }

  /** The two per-instance keys never collide with each other, with another instance's, or with the id list. */
  lemma KeysAreDistinct(a: string, b: string)
    ensures EventKey(a) != SnapshotKey(b)
    ensures EventKey(a) != InstanceIdsKey && SnapshotKey(a) != InstanceIdsKey
    ensures EventKey(a) == EventKey(b) ==> a == b
    ensures SnapshotKey(a) == SnapshotKey(b) ==> a == b
  {
    var e, s := EventKey(a), SnapshotKey(b);
    assert e[|e| - 2] == 'n' && s[|s| - 2] == 'o';
    assert e[|e| - 1] == 't' && SnapshotKey(a)[|SnapshotKey(a)| - 1] == 't';
    assert InstanceIdsKey[|InstanceIdsKey| - 1] == 's';
    if EventKey(a) == EventKey(b) {
      assert a == EventKey(a)[..|a|] && b == EventKey(b)[..|b|];
    }
    if SnapshotKey(a) == SnapshotKey(b) {
      assert a == SnapshotKey(a)[..|a|] && b == SnapshotKey(b)[..|b|];
    }
  }

  /** `JSON.parse(kvGet(eventKey) ?? "null")`: no event, an event object, or a value that is not an event. */
  datatype Pending = NoEvent | Stored(eventType: string) | NotAnEvent

  function ReadPending(stored: Option<Value>): (p: Pending)
    ensures p.NoEvent? <==> stored.None?
    ensures p.Stored? <==> stored.Some? && stored.value.EventJson?
    ensures p.Stored? ==> p.eventType == stored.value.eventType
  {
    match stored
    case None => NoEvent
    case Some(EventJson(t)) => Stored(t)
    case Some(_) => NotAnEvent
  }

  /** `createActor(myMachine, {snapshot})` then `start()`: resume the stored snapshot, or start afresh. */
  function Restore(stored: Option<Value>): (r: Snapshot)
    ensures stored.Some? && stored.value.SnapshotJson? ==> r == stored.value.snapshot
    ensures !(stored.Some? && stored.value.SnapshotJson?) ==> r == Started() && r.value == Processing
  {
    match stored
    case Some(SnapshotJson(snapshot)) => snapshot
    case _ => Started()
  }

  /** `snapshot.can(xEvent)`. */
  predicate Accepts(s: State, p: Pending)
    ensures Accepts(s, p) ==> p.Stored? && !IsFinal(s)
    ensures Accepts(s, p) <==> exists e :: p == Stored(EventType(e)) && Can(s, e)
  {
    p.Stored? && ParseEvent(p.eventType).Some? && Can(s, ParseEvent(p.eventType).value)
  }

  /** What a rejection carries: a thrown string, or an `Error` object from the actor. */
  datatype ErrorValue = Text(text: string) | ErrorObject(message: string)

  /** The first notification the promise around the actor resolves with. */
  datatype Signal = Next | Error(error: ErrorValue) | Completed

  datatype Resolution = Resolution(signal: Signal, snapshot: Snapshot)

  /**
   * The promise of the activation. No event resolves `next`; an event the
   * state can take is sent, and the actor's `next` resolves it; any other
   * event resolves an "Invalid Event" error and is not sent. The `complete`
   * callback never resolves the promise: on a snapshot already in its final
   * state it runs during `subscribe`, before `const snapshot` is initialised,
   * so reading `snapshot` throws and the throw is reported, not delivered.
   */
  function Activate(snap: Snapshot, pending: Pending): (r: Resolution)
    ensures !r.signal.Completed?
    ensures r.signal.Error? <==> !pending.NoEvent? && !Accepts(snap.value, pending)
    ensures r.signal.Error? ==> r.signal.error == Text("Invalid Event")
    ensures r.snapshot.context == snap.context
    ensures r.snapshot.value != snap.value ==>
      Accepts(snap.value, pending) && Step(snap.value, ParseEvent(pending.eventType).value) == Some(r.snapshot.value)
  {
    if pending.NoEvent? then Resolution(Next, snap)
    else if Accepts(snap.value, pending) then
      Resolution(Next, snap.(value := Step(snap.value, ParseEvent(pending.eventType).value).value))
    else Resolution(Error(Text("Invalid Event")), snap)
  }

  /** `error.message` as the source reads it: a thrown string has no `message`, so it reads `undefined`. */
  function MessageAsWritten(e: ErrorValue): (m: Option<string>)
    ensures m.Some? <==> e.ErrorObject?
    ensures m.Some? ==> m.value == e.message
  {
    match e
    case Text(_) => None
    case ErrorObject(m) => Some(m)
  }

  /** A template literal's rendering of a property that may be `undefined`. */
  function Interpolated(m: Option<string>): string {
    if m.Some? then m.value else "undefined"
  }

  /** The message an error carries: a thrown string is its own message. */
  function Message(e: ErrorValue): (m: string)
    ensures MessageAsWritten(e).Some? ==> Some(m) == MessageAsWritten(e)
    ensures e.Text? ==> m == e.text
  {
    match e
    case Text(t) => t
    case ErrorObject(m) => m
  }

  /** How the activation ends, checked in the source's order: terminal, then error, then next. */
  datatype Verdict = Complete | Fail(message: string) | Continue

  function Classify(value: State, signal: Signal): (v: Verdict)
    ensures v.Complete? <==> value == State.Processed || signal.Completed?
    ensures v.Fail? <==> !v.Complete? && signal.Error?
    ensures v.Fail? ==> v.message == Message(signal.error)
  {
    if value == State.Processed || signal.Completed? then Complete
    else if signal.Error? then Fail(Message(signal.error))
    else Continue
  }

  /** `JSON.stringify` of a state name (which holds no character needing an escape). */
  function Quoted(s: string): string {
    "\"" + s + "\""
  }

  function StepName(value: State, runId: string): (r: string)
    ensures |r| > 7 + |runId| && r[..7] == "step: \"" && r[|r| - |runId| - 1..] == runId + " "
  {
    "step: " + Quoted(StateName(value)) + " " + runId + " "
  }

  /** Within one run, each state has a step name of its own. */
  lemma StepNamesDistinct(a: State, b: State, runId: string)
    ensures StepName(a, runId) == StepName(b, runId) ==> a == b
  {
    var x, y := StepName(a, runId), StepName(b, runId);
    var na, nb := StateName(a), StateName(b);
    assert x == "step: \"" + na + "\" " + runId + " ";
    assert y == "step: \"" + nb + "\" " + runId + " ";
    assert |na| >= 9 && |nb| >= 9;
    assert x[7] == na[0] && y[7] == nb[0];
    assert x[14] == na[7] && y[14] == nb[7];
  }

  /** A call the activation makes on the storage or the workflow runtime. */
  datatype Effect =
    | KvSet(key: string, value: Value)
    | KvDelete(key: string)
    | StepDo(name: string)
    | Notify(message: string)
    | QueueSend(workflowInstanceId: string)
    | Pause(instanceId: string)

  function StepsIn(trace: seq<Effect>): nat
    decreases |trace|
  {
    if trace == [] then 0 else (if trace[0].StepDo? then 1 else 0) + StepsIn(trace[1..])
  }

  lemma {:induction false} StepsInConcat(a: seq<Effect>, b: seq<Effect>)
    ensures StepsIn(a + b) == StepsIn(a) + StepsIn(b)
    decreases |a|
  {
    if a != [] {
      assert (a + b)[1..] == a[1..] + b;
      StepsInConcat(a[1..], b);
    } else {
      assert a + b == b;
    }
  }

  lemma {:induction false} StepsInNone(trace: seq<Effect>)
    requires forall i :: 0 <= i < |trace| ==> !trace[i].StepDo?
    ensures StepsIn(trace) == 0
    decreases |trace|
  {
    if trace != [] {
      StepsInNone(trace[1..]);
    }
  }

  /** The messages an activation broadcasts, in order. */
  function Messages(trace: seq<Effect>): seq<string>
    decreases |trace|
  {
    if trace == [] then [] else (if trace[0].Notify? then [trace[0].message] else []) + Messages(trace[1..])
  }

  lemma {:induction false} MessagesConcat(a: seq<Effect>, b: seq<Effect>)
    ensures Messages(a + b) == Messages(a) + Messages(b)
    decreases |a|
  {
    if a != [] {
      assert (a + b)[1..] == a[1..] + b;
      MessagesConcat(a[1..], b);
    } else {
      assert a + b == b;
    }
  }

  lemma {:induction false} MessagesNone(trace: seq<Effect>)
    requires forall i :: 0 <= i < |trace| ==> !trace[i].Notify?
    ensures Messages(trace) == []
    decreases |trace|
  {
    if trace != [] {
      MessagesNone(trace[1..]);
    }
  }

  /** `{id, message}`, the object the workflow hands to the broadcaster. */
  function NoticeOf(instanceId: string, message: string): Notice {
    map["id" := instanceId, "message" := message]
  }

  /** What the broadcaster's sockets receive for a sequence of messages, all stamped with `time`. */
  function Broadcasts(sockets: seq<SocketId>, open: set<SocketId>, instanceId: string, time: string, messages: seq<string>): seq<Delivery<Notice>>
    decreases |messages|
  {
    if messages == [] then []
    else
      var last := messages[|messages| - 1];
      Broadcasts(sockets, open, instanceId, time, messages[..|messages| - 1])
        + Fanout(sockets, open, Stamp(NoticeOf(instanceId, last), time))
  }

  lemma BroadcastsOne(sockets: seq<SocketId>, open: set<SocketId>, instanceId: string, time: string, message: string)
    ensures Broadcasts(sockets, open, instanceId, time, [message]) == Fanout(sockets, open, Stamp(NoticeOf(instanceId, message), time))
  {
    assert [message][..0] == [];
  }

  /** The step a `next` activation runs: `Processing` enqueues a job and pauses, `Waiting Input` pauses, any other state runs none. */
  function StepPlan(value: State, instanceId: string, runId: string): (r: seq<Effect>)
    ensures StepsIn(r) == if value == Processing || value == WaitingInput then 1 else 0
    ensures r != [] ==> r[0] == StepDo(StepName(value, runId)) && r[|r| - 1] == Pause(instanceId)
    ensures QueueSend(instanceId) in r <==> value == Processing
  {
    var name := StepName(value, runId);
    if value == Processing then
      var r := [StepDo(name), Notify("Sending to queue: " + Quoted(StateName(value)) + " " + runId), QueueSend(instanceId), Pause(instanceId)];
      StepsInNone(r[1..]);
      r
    else if value == WaitingInput then
      var r := [StepDo(name), Notify(name), Pause(instanceId)];
      StepsInNone(r[1..]);
      r
    else []
  }

  /** A step broadcasts one message: the queue notice while `Processing`, its own name while `Waiting Input`. */
  lemma StepPlanMessages(value: State, instanceId: string, runId: string)
    ensures Messages(StepPlan(value, instanceId, runId)) ==
      if value == Processing then ["Sending to queue: " + Quoted(StateName(value)) + " " + runId]
      else if value == WaitingInput then [StepName(value, runId)]
      else []
  {
    var r := StepPlan(value, instanceId, runId);
    if r != [] {
      MessagesNone(r[2..]);
      assert r[1..][1..] == r[2..];
    }
  }

  /** What `run` returns: `{success: true}`, `{success: false, error}`, or nothing. */
  datatype RunOutcome = Succeeded | Failed(error: Option<string>) | NoResult

  datatype Activation = Activation(storage: map<string, Value>, trace: seq<Effect>, outcome: RunOutcome)

  /** The promise's resolution for the stored event and snapshot. */
  function Resolve(storage: map<string, Value>, instanceId: string): (r: Resolution)
    ensures !r.signal.Completed?
    ensures EventKey(instanceId) !in storage ==> r == Resolution(Next, Restore(Get(storage, SnapshotKey(instanceId))))
  {
    Activate(Restore(Get(storage, SnapshotKey(instanceId))), ReadPending(Get(storage, EventKey(instanceId))))
  }

  /** One activation: the storage it leaves, the calls it makes in order, and what it returns. */
  function RunSpec(storage: map<string, Value>, instanceId: string, runId: string): (a: Activation)
    ensures EventKey(instanceId) !in a.storage
    ensures a.storage.Keys <= storage.Keys + {SnapshotKey(instanceId)}
  {
    var eventKey, snapshotKey := EventKey(instanceId), SnapshotKey(instanceId);
    var res := Resolve(storage, instanceId);
    var persisted := storage[snapshotKey := SnapshotJson(res.snapshot)] - {eventKey};
    var written := [KvSet(snapshotKey, SnapshotJson(res.snapshot)), KvDelete(eventKey)];
    var ending := Conclude(res, instanceId, runId);
    Activation(if ending.dropsSnapshot then persisted - {snapshotKey} else persisted, written + ending.trace, ending.outcome)
  }

  /** How an activation ends once its snapshot is persisted: whether it drops the snapshot, the calls it makes, and what it returns. */
  datatype Ending = Ending(dropsSnapshot: bool, trace: seq<Effect>, outcome: RunOutcome)

  /** A run that returns a result drops the snapshot and announces it; a run that returns nothing runs its step. */
  function Conclude(res: Resolution, instanceId: string, runId: string): (r: Ending)
    ensures r.dropsSnapshot <==> r.outcome != NoResult
    ensures r.outcome == Succeeded <==> res.snapshot.value == State.Processed || res.signal.Completed?
    ensures r.outcome.Failed? <==> !r.outcome.Succeeded? && res.signal.Error?
    ensures r.outcome.Failed? ==> res.signal.Error? && r.outcome.error == Some(Message(res.signal.error))
    ensures r.outcome == NoResult ==> r.trace == StepPlan(res.snapshot.value, instanceId, runId)
    ensures r.outcome != NoResult ==> |Messages(r.trace)| == 1 && StepsIn(r.trace) == 0
  {
    var snapshotKey := SnapshotKey(instanceId);
    match Classify(res.snapshot.value, res.signal)
    case Complete =>
      var trace := [KvDelete(snapshotKey), Notify("Workflow complete!")];
      MessagesNone(trace[1..][1..]);
      StepsInNone(trace);
      Ending(true, trace, Succeeded)
    case Fail(m) =>
      var trace := [KvDelete(snapshotKey), Notify("Workflow failed: " + m)];
      MessagesNone(trace[1..][1..]);
      StepsInNone(trace);
      Ending(true, trace, Failed(Some(m)))
    case Continue =>
      Ending(false, StepPlan(res.snapshot.value, instanceId, runId), NoResult)
  }

  /** An activation's first two calls broadcast nothing. */
  lemma RunMessages(storage: map<string, Value>, instanceId: string, runId: string)
    ensures Messages(RunSpec(storage, instanceId, runId).trace) == Messages(Conclude(Resolve(storage, instanceId), instanceId, runId).trace)
  {
    var res := Resolve(storage, instanceId);
    var written := [KvSet(SnapshotKey(instanceId), SnapshotJson(res.snapshot)), KvDelete(EventKey(instanceId))];
    MessagesNone(written);
    MessagesConcat(written, Conclude(res, instanceId, runId).trace);
  }

  // ----- properties of an activation -----

  /** The storage an activation leaves, in terms of how it ends. */
  lemma RunStorage(storage: map<string, Value>, instanceId: string, runId: string)
    ensures var res := Resolve(storage, instanceId);
      var e := Conclude(res, instanceId, runId);
      var a := RunSpec(storage, instanceId, runId);
      && a.outcome == e.outcome
      && a.trace == [KvSet(SnapshotKey(instanceId), SnapshotJson(res.snapshot)), KvDelete(EventKey(instanceId))] + e.trace
      && EventKey(instanceId) !in a.storage
      && (e.dropsSnapshot ==> SnapshotKey(instanceId) !in a.storage)
      && (!e.dropsSnapshot ==> SnapshotKey(instanceId) in a.storage && a.storage[SnapshotKey(instanceId)] == SnapshotJson(res.snapshot))
      && forall k :: k != EventKey(instanceId) && k != SnapshotKey(instanceId) ==> Get(a.storage, k) == Get(storage, k)
  {
    KeysAreDistinct(instanceId, instanceId);
  }

  /** Every activation first writes the snapshot back and then deletes the pending event. */
  lemma RunConsumesPendingEvent(storage: map<string, Value>, instanceId: string, runId: string)
    ensures var a := RunSpec(storage, instanceId, runId);
      && EventKey(instanceId) !in a.storage
      && |a.trace| >= 2
      && a.trace[0] == KvSet(SnapshotKey(instanceId), SnapshotJson(Resolve(storage, instanceId).snapshot))
      && a.trace[1] == KvDelete(EventKey(instanceId))
  {
    RunStorage(storage, instanceId, runId);
  }

  /** An activation touches only its own two keys; the instance id list in particular stays as it was. */
  lemma RunTouchesOnlyItsKeys(storage: map<string, Value>, instanceId: string, runId: string)
    ensures var a := RunSpec(storage, instanceId, runId);
      && (forall k :: k != EventKey(instanceId) && k != SnapshotKey(instanceId) ==> Get(a.storage, k) == Get(storage, k))
      && Get(a.storage, InstanceIdsKey) == Get(storage, InstanceIdsKey)
  {
    KeysAreDistinct(instanceId, instanceId);
    RunStorage(storage, instanceId, runId);
  }

  /** With no pending event, an active snapshot is kept as it is and the activation goes on to its step. */
  lemma RunWithoutEvent(storage: map<string, Value>, instanceId: string, runId: string)
    requires EventKey(instanceId) !in storage
    requires StatusOf(Restore(Get(storage, SnapshotKey(instanceId)))) == Active
    ensures var a := RunSpec(storage, instanceId, runId);
      && a.outcome == NoResult
      && a.storage[SnapshotKey(instanceId)] == SnapshotJson(Restore(Get(storage, SnapshotKey(instanceId))))
  {
    var res := Resolve(storage, instanceId);
    assert res == Resolution(Next, Restore(Get(storage, SnapshotKey(instanceId))));
    RunStorage(storage, instanceId, runId);
  }

  /** A pending event the state cannot take is not sent: the run fails with "Invalid Event" and drops its snapshot. */
  lemma RunRejectsInvalidEvent(storage: map<string, Value>, instanceId: string, runId: string)
    requires var snap := Restore(Get(storage, SnapshotKey(instanceId)));
      var pending := ReadPending(Get(storage, EventKey(instanceId)));
      StatusOf(snap) == Active && !pending.NoEvent? && !Accepts(snap.value, pending)
    ensures var a := RunSpec(storage, instanceId, runId);
      && Resolve(storage, instanceId).snapshot == Restore(Get(storage, SnapshotKey(instanceId)))
      && a.outcome == Failed(Some("Invalid Event"))
      && SnapshotKey(instanceId) !in a.storage && EventKey(instanceId) !in a.storage
      && a.trace[|a.trace| - 1] == Notify("Workflow failed: " + "Invalid Event")
      && StepsIn(a.trace) == 0
  {
    var snap := Restore(Get(storage, SnapshotKey(instanceId)));
    var res := Resolve(storage, instanceId);
    assert res == Resolution(Error(Text("Invalid Event")), snap);
    assert Classify(snap.value, res.signal) == Fail("Invalid Event");
    var e := Conclude(res, instanceId, runId);
    assert e == Ending(true, [KvDelete(SnapshotKey(instanceId)), Notify("Workflow failed: " + "Invalid Event")], Failed(Some("Invalid Event")));
    RunStorage(storage, instanceId, runId);
    StepsInNone(RunSpec(storage, instanceId, runId).trace);
  }

  /**
   * As written, the failure message of a rejected event reads `undefined`: the
   * run returns `{success: false, error: undefined}` and broadcasts
   * "Workflow failed: undefined", where the corrected run reports "Invalid Event".
   */
  lemma InvalidEventMessageLostAsWritten(storage: map<string, Value>, instanceId: string)
    requires var snap := Restore(Get(storage, SnapshotKey(instanceId)));
      var pending := ReadPending(Get(storage, EventKey(instanceId)));
      !pending.NoEvent? && !Accepts(snap.value, pending)
    ensures Resolve(storage, instanceId).signal.Error?
    ensures var written := MessageAsWritten(Resolve(storage, instanceId).signal.error);
      && Failed(written) == Failed(None)
      && "Workflow failed: " + Interpolated(written) == "Workflow failed: undefined"
      && Message(Resolve(storage, instanceId).signal.error) == "Invalid Event"
  {
  }

  /** An event the state can take moves the persisted snapshot to the transition's target. */
  lemma RunAcceptsEvent(storage: map<string, Value>, instanceId: string, runId: string, e: Event)
    requires var snap := Restore(Get(storage, SnapshotKey(instanceId)));
      && StatusOf(snap) == Active
      && ReadPending(Get(storage, EventKey(instanceId))) == Stored(EventType(e))
      && Can(snap.value, e)
    ensures var snap := Restore(Get(storage, SnapshotKey(instanceId)));
      var target := Step(snap.value, e).value;
      var a := RunSpec(storage, instanceId, runId);
      && a.trace[0] == KvSet(SnapshotKey(instanceId), SnapshotJson(Snapshot(target, snap.context)))
      && a.outcome == (if target == State.Processed then Succeeded else NoResult)
  {
    EventAlphabet(EventType(e));
    var snap := Restore(Get(storage, SnapshotKey(instanceId)));
    assert Resolve(storage, instanceId) == Resolution(Next, Snapshot(Step(snap.value, e).value, snap.context));
    RunStorage(storage, instanceId, runId);
  }

  /** A run either returns a result and runs no step, or returns nothing and runs at most one step. */
  lemma RunOutcomesExclusive(storage: map<string, Value>, instanceId: string, runId: string)
    ensures var a := RunSpec(storage, instanceId, runId);
      && (a.outcome != NoResult ==> StepsIn(a.trace) == 0 && SnapshotKey(instanceId) !in a.storage)
      && (a.outcome == NoResult ==> StepsIn(a.trace) <= 1 && SnapshotKey(instanceId) in a.storage)
  {
    var res := Resolve(storage, instanceId);
    var written := [KvSet(SnapshotKey(instanceId), SnapshotJson(res.snapshot)), KvDelete(EventKey(instanceId))];
    RunStorage(storage, instanceId, runId);
    StepsInNone(written);
    StepsInConcat(written, Conclude(res, instanceId, runId).trace);
  }

  /** The snapshot stored for an instance, if any, is one a started machine can be in. */
  predicate Resumable(storage: map<string, Value>, instanceId: string) {
    SnapshotKey(instanceId) in storage && storage[SnapshotKey(instanceId)].SnapshotJson? ==>
      storage[SnapshotKey(instanceId)].snapshot.value != Unprocessed
  }

  /** Activations keep stored snapshots resumable; one that returns nothing leaves a waiting state behind. */
  lemma RunKeepsSnapshotsResumable(storage: map<string, Value>, instanceId: string, runId: string)
    requires Resumable(storage, instanceId)
    ensures var a := RunSpec(storage, instanceId, runId);
      && Resumable(a.storage, instanceId)
      && (a.outcome == NoResult ==>
            a.storage[SnapshotKey(instanceId)].SnapshotJson?
            && a.storage[SnapshotKey(instanceId)].snapshot.value in {Processing, WaitingInput})
  {
    var restored := Restore(Get(storage, SnapshotKey(instanceId)));
    var res := Resolve(storage, instanceId);
    assert restored.value != Unprocessed;
    assert res.snapshot.value != Unprocessed by {
      if res.snapshot.value != restored.value {
        assert Rank(res.snapshot.value) > Rank(restored.value);
      }
    }
    RunStorage(storage, instanceId, runId);
  }

  /** A first activation, with nothing stored, starts the machine, keeps it in `Processing` and enqueues the job. */
  lemma FirstRunEnqueues(storage: map<string, Value>, instanceId: string, runId: string)
    requires EventKey(instanceId) !in storage && SnapshotKey(instanceId) !in storage
    ensures var a := RunSpec(storage, instanceId, runId);
      && a.outcome == NoResult
      && a.storage == storage[SnapshotKey(instanceId) := SnapshotJson(Snapshot(Processing, Context()))]
      && a.trace[2..] == StepPlan(Processing, instanceId, runId)
  {
    KeysAreDistinct(instanceId, instanceId);
    assert Resolve(storage, instanceId) == Resolution(Next, Started());
  }

  /** `processed` on a snapshot in `Processing` moves it to `Waiting Input` and pauses again. */
  lemma ProcessedRunWaits(storage: map<string, Value>, instanceId: string, runId: string)
    requires Get(storage, SnapshotKey(instanceId)) == Some(SnapshotJson(Snapshot(Processing, Context())))
    requires Get(storage, EventKey(instanceId)) == Some(EventJson("processed"))
    ensures var a := RunSpec(storage, instanceId, runId);
      && a.outcome == NoResult
      && a.storage == storage[SnapshotKey(instanceId) := SnapshotJson(Snapshot(WaitingInput, Context()))] - {EventKey(instanceId)}
      && a.trace[2..] == StepPlan(WaitingInput, instanceId, runId)
  {
    assert ParseEvent("processed") == Some(Event.Processed);
    assert Resolve(storage, instanceId) == Resolution(Next, Snapshot(WaitingInput, Context()));
  }

  /** `received` on a snapshot in `Waiting Input` completes the workflow and clears both of its keys. */
  lemma ReceivedRunCompletes(storage: map<string, Value>, instanceId: string, runId: string)
    requires Get(storage, SnapshotKey(instanceId)) == Some(SnapshotJson(Snapshot(WaitingInput, Context())))
    requires Get(storage, EventKey(instanceId)) == Some(EventJson("received"))
    ensures var a := RunSpec(storage, instanceId, runId);
      && a.outcome == Succeeded
      && a.storage == storage - {EventKey(instanceId), SnapshotKey(instanceId)}
  {
    assert ParseEvent("received") == Some(Received);
    assert Resolve(storage, instanceId).snapshot.value == State.Processed;
  }

  /** From nothing stored: a first run enqueues the job and pauses, `processed` moves on to `Waiting Input`, `received` completes and leaves the storage as it found it. */
  lemma HappyPath(s0: map<string, Value>, instanceId: string, r1: string, r2: string, r3: string)
    requires EventKey(instanceId) !in s0 && SnapshotKey(instanceId) !in s0
    ensures var a1 := RunSpec(s0, instanceId, r1);
      var a2 := RunSpec(a1.storage[EventKey(instanceId) := EventJson("processed")], instanceId, r2);
      var a3 := RunSpec(a2.storage[EventKey(instanceId) := EventJson("received")], instanceId, r3);
      && a1.outcome == NoResult
      && a1.trace[2..] == StepPlan(Processing, instanceId, r1)
      && a2.outcome == NoResult
      && Get(a2.storage, SnapshotKey(instanceId)) == Some(SnapshotJson(Snapshot(WaitingInput, Context())))
      && a2.trace[2..] == StepPlan(WaitingInput, instanceId, r2)
      && a3.outcome == Succeeded
      && a3.storage == s0
  {
    var ek, sk := EventKey(instanceId), SnapshotKey(instanceId);
    KeysAreDistinct(instanceId, instanceId);
    var processing, waiting := SnapshotJson(Snapshot(Processing, Context())), SnapshotJson(Snapshot(WaitingInput, Context()));
    FirstRunEnqueues(s0, instanceId, r1);
    var s1 := s0[sk := processing][ek := EventJson("processed")];
    ProcessedRunWaits(s1, instanceId, r2);
    var s2 := (s1[sk := waiting] - {ek})[ek := EventJson("received")];
    ReceivedRunCompletes(s2, instanceId, r3);
    ClearedKeys(s0, ek, sk, processing, EventJson("processed"), waiting, EventJson("received"));
  }

  /** Writing and deleting two keys a map did not have, ending with both deleted, gives back the map. */
  lemma ClearedKeys(s0: map<string, Value>, ek: string, sk: string, v1: Value, v2: Value, v3: Value, v4: Value)
    requires ek !in s0 && sk !in s0 && ek != sk
    ensures ((s0[sk := v1][ek := v2][sk := v3] - {ek})[ek := v4]) - {ek, sk} == s0
  {
    var r := ((s0[sk := v1][ek := v2][sk := v3] - {ek})[ek := v4]) - {ek, sk};
    assert r.Keys == s0.Keys;
  }

  class XstateWorkflow {
    /** The durable object the workflow keeps its keys in. */
    const stub: WebSocketDO
    /** Every call made so far on the storage and the runtime, in order. */
    var effects: seq<Effect>

    constructor (stub: WebSocketDO)
      ensures this.stub == stub && effects == []
    {
      this.stub := stub;
      effects := [];
    }

    /** The broadcaster's side of `broadcast(message)`: `{id, message}`, stamped with `time`, to each open socket. */
    method Send(instanceId: string, message: string, time: string, open: set<SocketId>)
      requires stub.Valid()
      modifies stub
      ensures stub.sent == old(stub.sent) + Broadcasts(old(stub.sockets), open, instanceId, time, [message])
      ensures stub.storage == old(stub.storage) && stub.sockets == old(stub.sockets)
    {
      stub.Broadcast(NoticeOf(instanceId, message), time, open);
      BroadcastsOne(stub.sockets, open, instanceId, time, message);
    }

    /** `broadcast(message)`: records the call and sends the message. */
    method Announce(instanceId: string, message: string, time: string, open: set<SocketId>)
      requires stub.Valid()
      modifies this, stub
      ensures effects == old(effects) + [Notify(message)]
      ensures stub.sent == old(stub.sent) + Broadcasts(old(stub.sockets), open, instanceId, time, [message])
      ensures stub.storage == old(stub.storage) && stub.sockets == old(stub.sockets)
    {
      effects := effects + [Notify(message)];
      Send(instanceId, message, time, open);
    }

    /** The step a `next` activation runs in state `value`: the calls it makes, and the one message it sends. */
    method RunStep(value: State, instanceId: string, runId: string, time: string, open: set<SocketId>)
      requires stub.Valid()
      modifies this, stub
      ensures effects == old(effects) + StepPlan(value, instanceId, runId)
      ensures stub.sent == old(stub.sent) + Broadcasts(old(stub.sockets), open, instanceId, time, Messages(StepPlan(value, instanceId, runId)))
      ensures stub.storage == old(stub.storage) && stub.sockets == old(stub.sockets)
    {
      StepPlanMessages(value, instanceId, runId);
      var stepName := StepName(value, runId);
      if value == Processing {
        var notice := "Sending to queue: " + Quoted(StateName(value)) + " " + runId;
        effects := effects + [StepDo(stepName), Notify(notice), QueueSend(instanceId), Pause(instanceId)];
        Send(instanceId, notice, time, open);
      } else if value == WaitingInput {
        effects := effects + [StepDo(stepName), Notify(stepName), Pause(instanceId)];
        Send(instanceId, stepName, time, open);
      }
    }

    /** Reads the pending event and the snapshot, resolves the activation, persists the snapshot and clears the event. */
    method Persist(instanceId: string) returns (res: Resolution)
      modifies this, stub
      ensures res == Resolve(old(stub.storage), instanceId)
      ensures stub.storage == old(stub.storage)[SnapshotKey(instanceId) := SnapshotJson(res.snapshot)] - {EventKey(instanceId)}
      ensures effects == old(effects) + [KvSet(SnapshotKey(instanceId), SnapshotJson(res.snapshot)), KvDelete(EventKey(instanceId))]
      ensures stub.sent == old(stub.sent) && stub.sockets == old(stub.sockets)
    {
      var eventKey := EventKey(instanceId);
      var pending := ReadPending(stub.KvGet(eventKey));
      var snapshotKey := SnapshotKey(instanceId);
      var restored := Restore(stub.KvGet(snapshotKey));
      res := Activate(restored, pending);
      stub.KvSet(snapshotKey, SnapshotJson(res.snapshot));
      effects := effects + [KvSet(snapshotKey, SnapshotJson(res.snapshot))];
      stub.KvDelete(eventKey);
      effects := effects + [KvDelete(eventKey)];
    }

    /** Everything after the event is cleared: finish with a result, or run the step. */
    method Finish(res: Resolution, instanceId: string, runId: string, time: string, open: set<SocketId>) returns (outcome: RunOutcome)
      requires stub.Valid()
      modifies this, stub
      ensures var e := Conclude(res, instanceId, runId);
        && stub.storage == (if e.dropsSnapshot then old(stub.storage) - {SnapshotKey(instanceId)} else old(stub.storage))
        && effects == old(effects) + e.trace
        && stub.sent == old(stub.sent) + Broadcasts(old(stub.sockets), open, instanceId, time, Messages(e.trace))
        && outcome == e.outcome
      ensures stub.sockets == old(stub.sockets)
    {
      var snapshotKey := SnapshotKey(instanceId);
      if res.snapshot.value == State.Processed || res.signal.Completed? {
        stub.KvDelete(snapshotKey);
        effects := effects + [KvDelete(snapshotKey)];
        Announce(instanceId, "Workflow complete!", time, open);
        return Succeeded;
      }

      if res.signal.Error? {
        stub.KvDelete(snapshotKey);
        effects := effects + [KvDelete(snapshotKey)];
        var message := Message(res.signal.error);
        Announce(instanceId, "Workflow failed: " + message, time, open);
        return Failed(Some(message));
      }

      RunStep(res.snapshot.value, instanceId, runId, time, open);
      outcome := NoResult;
    }

    /**
     * `run`: one activation of the instance `instanceId`. `runId` is the fresh
     * id the source draws; `time` stamps the broadcasts and `open` is the set
     * of sockets that are open while they go out.
     */
    method Run(instanceId: string, runId: string, time: string, open: set<SocketId>) returns (outcome: RunOutcome)
      requires stub.Valid()
      modifies this, stub
      ensures var a := RunSpec(old(stub.storage), instanceId, runId);
        && stub.storage == a.storage
        && effects == old(effects) + a.trace
        && outcome == a.outcome
        && stub.sent == old(stub.sent) + Broadcasts(old(stub.sockets), open, instanceId, time, Messages(a.trace))
      ensures stub.sockets == old(stub.sockets)
    {
      ghost var before, effects0 := stub.storage, effects;
      var res := Persist(instanceId);
      ghost var written := effects[|effects0|..];
      assert effects == effects0 + written;
      outcome := Finish(res, instanceId, runId, time, open);
      ghost var ending := Conclude(res, instanceId, runId);
      assert effects == effects0 + (written + ending.trace);
      RunStorage(before, instanceId, runId);
      RunMessages(before, instanceId, runId);
      assert RunSpec(before, instanceId, runId).trace == written + ending.trace;
    }
  }
}
