/**
 * The durable object that keeps every workflow instance's record in one list
 * stored under the key "workflow-instances", and pushes updated records to
 * the websockets it has accepted.
 */
module InstanceStore {
  import opened Wrappers
  import opened JsSet
  import opened Sockets
  import Machine

  const InstancesKey: string := "workflow-instances"

  /** A `Date`, as milliseconds; the clock is a parameter of every operation that reads it. */
  type Time = int

  datatype WorkflowStateValue = Queued | Running | WaitingForEvent | ProcessingStep | Completed | Errored

  /** A property that is present on an object: `null`/`undefined` or a value. */
  datatype Nullable<T> = Null | Value(value: T)

  /**
   * A stored `WorkflowInstanceData`. An optional property is `None` when the
   * object does not have it. `workflowInstanceId` is not a declared property:
   * records written by `broadcast` carry it because the event is spread into them.
   */
  datatype InstanceRecord = InstanceRecord(
    id: string,
    workflowStateValue: Option<Nullable<WorkflowStateValue>>,
    workflowStatusMessage: Option<Nullable<string>>,
    xstateSnapshot: Option<Nullable<Machine.Snapshot>>,
    workflowInstanceId: Option<string>,
    createdAt: Time,
    updatedAt: Time)

  /** A `Partial<WorkflowInstanceData>`: `None` marks a property the object does not have. */
  datatype Patch = Patch(
    id: Option<string>,
    workflowStateValue: Option<Nullable<WorkflowStateValue>>,
    workflowStatusMessage: Option<Nullable<string>>,
    xstateSnapshot: Option<Nullable<Machine.Snapshot>>,
    workflowInstanceId: Option<string>,
    createdAt: Option<Time>,
    updatedAt: Option<Time>)

  /** `BroadcastEvent`: the fields to merge and the id of the record they belong to. */
  datatype BroadcastEvent = BroadcastEvent(workflowInstanceId: string, fields: Patch)

  // ----- records as JavaScript objects -----

  datatype JsValue =
    | JString(s: string)
    | JTime(t: Time)
    | JNull
    | JStateValue(v: WorkflowStateValue)
    | JSnapshot(snapshot: Machine.Snapshot)

  /** The properties a record or a patch can have: `id`, `workflowStateValue`, `workflowStatusMessage`, `xstateSnapshot`, `workflowInstanceId`, `createdAt` and `updatedAt`. */
  datatype Property = Id | StateValue | StatusMessage | XstateSnapshot | InstanceId | CreatedAt | UpdatedAt

  const AllProperties: set<Property> := {Id, StateValue, StatusMessage, XstateSnapshot, InstanceId, CreatedAt, UpdatedAt}

  function NullableValue<T>(f: Option<Nullable<T>>, wrap: T -> JsValue): Option<JsValue> {
    match f
    case None => None
    case Some(Null) => Some(JNull)
    case Some(Value(v)) => Some(wrap(v))
  }

  /** The value of property `key` of a record, if the record has it. */
  function RecordProperty(r: InstanceRecord, key: Property): Option<JsValue> {
    match key
    case Id => Some(JString(r.id))
    case StateValue => NullableValue(r.workflowStateValue, v => JStateValue(v))
    case StatusMessage => NullableValue(r.workflowStatusMessage, m => JString(m))
    case XstateSnapshot => NullableValue(r.xstateSnapshot, s => JSnapshot(s))
    case InstanceId => if r.workflowInstanceId.None? then None else Some(JString(r.workflowInstanceId.value))
    case CreatedAt => Some(JTime(r.createdAt))
    case UpdatedAt => Some(JTime(r.updatedAt))
  }

  /** The value of property `key` of a patch, if the patch has it. */
  function PatchProperty(p: Patch, key: Property): Option<JsValue> {
    match key
    case Id => if p.id.None? then None else Some(JString(p.id.value))
    case StateValue => NullableValue(p.workflowStateValue, v => JStateValue(v))
    case StatusMessage => NullableValue(p.workflowStatusMessage, m => JString(m))
    case XstateSnapshot => NullableValue(p.xstateSnapshot, s => JSnapshot(s))
    case InstanceId => if p.workflowInstanceId.None? then None else Some(JString(p.workflowInstanceId.value))
    case CreatedAt => if p.createdAt.None? then None else Some(JTime(p.createdAt.value))
    case UpdatedAt => if p.updatedAt.None? then None else Some(JTime(p.updatedAt.value))
  }

  /** A record as the JavaScript object it is: its own properties, by name. */
  function ObjectOf(r: InstanceRecord): map<Property, JsValue> {
    map k | k in AllProperties && RecordProperty(r, k).Some? :: RecordProperty(r, k).value
  }

  function PatchObject(p: Patch): map<Property, JsValue> {
    map k | k in AllProperties && PatchProperty(p, k).Some? :: PatchProperty(p, k).value
  }

  // ----- the list operations -----

  /** The record `upsert` creates for an id it does not find. */
  function Fresh(id: string, now: Time): InstanceRecord {
    InstanceRecord(id, None, None, None, None, now, now)
  }

  /** `Object.assign(existing, {...existing, ...data, updatedAt: now})`. */
  function Merge(r: InstanceRecord, data: Patch, now: Time): (m: InstanceRecord)
    ensures m.updatedAt == now
    ensures data.id.None? ==> m.id == r.id
    ensures data.createdAt.None? ==> m.createdAt == r.createdAt
  {
    InstanceRecord(
      if data.id.Some? then data.id.value else r.id,
      if data.workflowStateValue.Some? then data.workflowStateValue else r.workflowStateValue,
      if data.workflowStatusMessage.Some? then data.workflowStatusMessage else r.workflowStatusMessage,
      if data.xstateSnapshot.Some? then data.xstateSnapshot else r.xstateSnapshot,
      if data.workflowInstanceId.Some? then data.workflowInstanceId else r.workflowInstanceId,
      if data.createdAt.Some? then data.createdAt.value else r.createdAt,
      now)
  }

  /** `findIndex(instance => instance.id === id)`: the first position holding `id`, or -1. */
  function IndexOf(s: seq<InstanceRecord>, id: string): (r: int)
    ensures -1 <= r < |s|
    ensures r >= 0 ==> s[r].id == id
    ensures forall j :: 0 <= j < |s| && (r < 0 || j < r) ==> s[j].id != id
    decreases |s|
  {
    if s == [] then -1
    else if s[0].id == id then 0
    else
      var k := IndexOf(s[1..], id);
      if k < 0 then -1 else k + 1
  }

  /** `find(instance => instance.id === id)`. */
  function Lookup(s: seq<InstanceRecord>, id: string): (r: Option<InstanceRecord>)
    ensures r.None? <==> forall j :: 0 <= j < |s| ==> s[j].id != id
    ensures r.Some? ==> r.value.id == id
    ensures r.Some? ==> exists k :: 0 <= k < |s| && s[k] == r.value && (forall j :: 0 <= j < k ==> s[j].id != id)
  {
    var k := IndexOf(s, id);
    if k < 0 then None else Some(s[k])
  }

  predicate UniqueIds(s: seq<InstanceRecord>) {
    forall i, j :: 0 <= i < j < |s| ==> s[i].id != s[j].id
  }

  /** Where the upserted record sits afterwards. */
  function UpsertIndex(s: seq<InstanceRecord>, id: string): nat {
    var k := IndexOf(s, id);
    if k < 0 then |s| else k
  }

  /** The list `upsertWorkflowInstance` writes back. */
  function UpsertList(s: seq<InstanceRecord>, id: string, data: Patch, now: Time): (r: seq<InstanceRecord>)
    ensures UpsertIndex(s, id) < |r|
  {
    var k := IndexOf(s, id);
    if k < 0 then s + [Merge(Fresh(id, now), data, now)] else s[k := Merge(s[k], data, now)]
  }

  /** The list `removeWorkflowInstance` writes back. */
  function RemoveFirst(s: seq<InstanceRecord>, id: string): (r: seq<InstanceRecord>)
    ensures |r| == if Lookup(s, id).Some? then |s| - 1 else |s|
    ensures multiset(r) <= multiset(s)
  {
    var k := IndexOf(s, id);
    if k < 0 then s
    else
      assert s == s[..k] + [s[k]] + s[k + 1..];
      s[..k] + s[k + 1..]
  }

  /** `broadcast` spreads the whole event, `workflowInstanceId` included, into the update. */
  function EventPatch(e: BroadcastEvent): (p: Patch)
    ensures PatchObject(p) == PatchObject(e.fields)[InstanceId := JString(e.workflowInstanceId)]
  {
    e.fields.(workflowInstanceId := Some(e.workflowInstanceId))
  }

  /** The loop behind `find` and `findIndex`. */
  method FindIndex(s: seq<InstanceRecord>, id: string) returns (index: int)
    ensures index == IndexOf(s, id)
  {
    index := 0;
    while index < |s| && s[index].id != id
      invariant 0 <= index <= |s|
      invariant forall j :: 0 <= j < index ==> s[j].id != id
    {
      index := index + 1;
    }
    if index == |s| {
      index := -1;
    }
  }

  // ----- properties of the list operations -----

  /** One property of a merged record: `updatedAt` is `now`, a property of `data` wins, any other is the old one. */
  lemma MergedProperty(r: InstanceRecord, data: Patch, now: Time, k: Property)
    ensures RecordProperty(Merge(r, data, now), k) ==
      if k == UpdatedAt then Some(JTime(now))
      else if PatchProperty(data, k).Some? then PatchProperty(data, k)
      else RecordProperty(r, k)
  {
  }

  /** Merging is JavaScript's spread: the old properties, overridden by the patch's, then `updatedAt`. */
  lemma MergeIsSpread(r: InstanceRecord, data: Patch, now: Time)
    ensures ObjectOf(Merge(r, data, now)) == ObjectOf(r) + PatchObject(data) + map[UpdatedAt := JTime(now)]
  {
    var m := Merge(r, data, now);
    var merged := ObjectOf(m);
    var spread := ObjectOf(r) + PatchObject(data) + map[UpdatedAt := JTime(now)];
    forall k | k in AllProperties
      ensures (k in merged <==> k in spread) && (k in merged ==> merged[k] == spread[k])
    {
      MergedProperty(r, data, now, k);
    }
    assert merged.Keys == spread.Keys;
  }

  /** An id not in the list gets one new record at the end, created and updated `now`. */
  lemma UpsertAppends(s: seq<InstanceRecord>, id: string, data: Patch, now: Time)
    requires Lookup(s, id).None?
    ensures var r := UpsertList(s, id, data, now);
      |r| == |s| + 1 && r[..|s|] == s && UpsertIndex(s, id) == |s|
      && r[|s|] == Merge(InstanceRecord(id, None, None, None, None, now, now), data, now)
  {
  }

  /** An id already present changes only its first record; length and every other record stay. */
  lemma UpsertReplaces(s: seq<InstanceRecord>, id: string, data: Patch, now: Time)
    requires Lookup(s, id).Some?
    ensures var r := UpsertList(s, id, data, now);
      var k := UpsertIndex(s, id);
      |r| == |s| && k < |s| && s[k] == Lookup(s, id).value
      && r[k] == Merge(s[k], data, now)
      && forall j :: 0 <= j < |s| && j != k ==> r[j] == s[j]
  {
  }

  /** The upserted record has every property of `data`, keeps the old ones `data` lacks, and is updated `now`. */
  lemma UpsertedFields(s: seq<InstanceRecord>, id: string, data: Patch, now: Time)
    ensures var m := UpsertList(s, id, data, now)[UpsertIndex(s, id)];
      var base := if Lookup(s, id).Some? then Lookup(s, id).value else Fresh(id, now);
      && ObjectOf(m) == ObjectOf(base) + PatchObject(data) + map[UpdatedAt := JTime(now)]
      && m.updatedAt == now
      && (data.id.None? ==> m.id == id)
      && (Lookup(s, id).None? && data.createdAt.None? ==> m.createdAt == now)
  {
    MergeIsSpread(if Lookup(s, id).Some? then Lookup(s, id).value else Fresh(id, now), data, now);
  }

  /** Upserting keeps ids unique as long as `data` does not carry a different id. */
  lemma UpsertKeepsIdsUnique(s: seq<InstanceRecord>, id: string, data: Patch, now: Time)
    requires UniqueIds(s)
    requires data.id.None? || data.id == Some(id)
    ensures UniqueIds(UpsertList(s, id, data, now))
  {
    var r := UpsertList(s, id, data, now);
    var k := IndexOf(s, id);
    forall i, j | 0 <= i < j < |r| ensures r[i].id != r[j].id {
      if k < 0 {
        assert j == |s| ==> r[j].id == id && r[i] == s[i];
      }
    }
  }

  /** After an upsert, looking up its id finds exactly the record it returned. */
  lemma LookupAfterUpsert(s: seq<InstanceRecord>, id: string, data: Patch, now: Time)
    requires data.id.None? || data.id == Some(id)
    ensures Lookup(UpsertList(s, id, data, now), id) == Some(UpsertList(s, id, data, now)[UpsertIndex(s, id)])
  {
    var r := UpsertList(s, id, data, now);
    var k := UpsertIndex(s, id);
    assert r[k].id == id;
    assert forall j :: 0 <= j < k ==> r[j] == s[j];
    assert IndexOf(r, id) == k;
  }

  /** An upsert leaves what every other id looks up unchanged. */
  lemma LookupOtherAfterUpsert(s: seq<InstanceRecord>, id: string, data: Patch, now: Time, other: string)
    requires other != id && data.id != Some(other)
    ensures Lookup(UpsertList(s, id, data, now), other) == Lookup(s, other)
  {
    var r := UpsertList(s, id, data, now);
    var k := IndexOf(s, id);
    var m := IndexOf(s, other);
    assert r[UpsertIndex(s, id)].id != other;
    if m < 0 {
      assert forall j :: 0 <= j < |r| ==> r[j].id != other by {
        forall j | 0 <= j < |r| ensures r[j].id != other {
          if j != UpsertIndex(s, id) { assert r[j] == s[j]; }
        }
      }
    } else {
      assert m != k;
      assert r[m] == s[m];
      assert forall j :: 0 <= j < m ==> r[j].id != other by {
        forall j | 0 <= j < m ensures r[j].id != other {
          if j != UpsertIndex(s, id) { assert r[j] == s[j]; }
        }
      }
      assert IndexOf(r, other) == m;
    }
  }

  /** Removing an absent id writes back the same list. */
  lemma RemoveAbsent(s: seq<InstanceRecord>, id: string)
    requires Lookup(s, id).None?
    ensures RemoveFirst(s, id) == s
  {
  }

  /** Removing a present id drops its first record and keeps all others in order. */
  lemma RemovePresent(s: seq<InstanceRecord>, id: string)
    requires Lookup(s, id).Some?
    ensures var k := IndexOf(s, id);
      0 <= k < |s| && s[k].id == id && RemoveFirst(s, id) == s[..k] + s[k + 1..]
      && |RemoveFirst(s, id)| == |s| - 1
  {
  }

  /** With unique ids, a removed id is gone and ids stay unique. */
  lemma LookupAfterRemove(s: seq<InstanceRecord>, id: string)
    requires UniqueIds(s)
    ensures Lookup(RemoveFirst(s, id), id).None?
    ensures UniqueIds(RemoveFirst(s, id))
  {
    var k := IndexOf(s, id);
    var r := RemoveFirst(s, id);
    if k >= 0 {
      assert forall j :: 0 <= j < |r| ==> r[j] == (if j < k then s[j] else s[j + 1]);
      forall j | 0 <= j < |r| ensures r[j].id != id {
        if j < k { assert r[j] == s[j]; } else { assert r[j] == s[j + 1]; }
      }
    }
  }

  /** Removing one id leaves what every other id looks up unchanged. */
  lemma LookupOtherAfterRemove(s: seq<InstanceRecord>, id: string, other: string)
    requires other != id
    ensures Lookup(RemoveFirst(s, id), other) == Lookup(s, other)
  {
    var k := IndexOf(s, id);
    var r := RemoveFirst(s, id);
    if k >= 0 {
      assert forall j :: 0 <= j < |r| ==> r[j] == (if j < k then s[j] else s[j + 1]);
      var m := IndexOf(s, other);
      if m >= 0 {
        var mr := if m < k then m else m - 1;
        assert m != k;
        assert r[mr] == s[m];
        assert forall j :: 0 <= j < mr ==> r[j].id != other;
        assert IndexOf(r, other) == mr;
      } else {
        assert forall j :: 0 <= j < |r| ==> r[j].id != other;
      }
    }
  }

  /** Inserting a new id and removing it again gives back the original list. */
  lemma RemoveUndoesInsert(s: seq<InstanceRecord>, id: string, data: Patch, now: Time)
    requires Lookup(s, id).None?
    requires data.id.None? || data.id == Some(id)
    ensures RemoveFirst(UpsertList(s, id, data, now), id) == s
  {
    var r := UpsertList(s, id, data, now);
    UpsertAppends(s, id, data, now);
    LookupAfterUpsert(s, id, data, now);
    assert IndexOf(r, id) == |s|;
    assert RemoveFirst(r, id) == r[..|s|] + r[|s| + 1..];
    assert r[|s| + 1..] == [];
  }

  // ----- the durable object -----

  class XstateWorkflowDO {
    /** `ctx.storage`, through `kvGet`/`kvSet`; the only values this object stores are instance lists. */
    var storage: map<string, seq<InstanceRecord>>
    /** `ctx.getWebSockets()`: the accepted server-side sockets, in acceptance order. */
    var webSockets: seq<SocketId>
    /** Every `ws.send` made so far, in order. */
    var sent: seq<Delivery<InstanceRecord>>

    /** The runtime hands out a socket once, so the accepted sockets are distinct. */
    ghost predicate Valid()
      reads this
    {
      NoDuplicates(webSockets)
    }

    /**
     * The object as the runtime creates it: `ctx.storage` is durable and the
     * hibernated sockets survive, so both are whatever an earlier incarnation
     * left; only the log of this incarnation's sends starts empty.
     */
    constructor (stored: map<string, seq<InstanceRecord>>, accepted: seq<SocketId>)
      requires NoDuplicates(accepted)
      ensures Valid() && storage == stored && webSockets == accepted && sent == []
    {
      storage := stored;
      webSockets := accepted;
      sent := [];
    }

    /** The stored list, with nothing stored read as `[]`. */
    function Instances(): seq<InstanceRecord>
      reads this
    {
      if InstancesKey in storage then storage[InstancesKey] else []
    }

    /** `fetch`: an upgrade request has its server socket accepted (101); any other request gets 400. */
    method Fetch(upgrade: bool, server: SocketId) returns (status: int)
      requires Valid()
      modifies this
      ensures Valid()
      ensures upgrade ==> status == 101 && webSockets == Add(old(webSockets), server)
      ensures !upgrade ==> status == 400 && webSockets == old(webSockets)
      ensures storage == old(storage) && sent == old(sent)
    {
      if upgrade {
        webSockets := Add(webSockets, server);
        status := 101;
      } else {
        status := 400;
      }
    }

    method UpsertWorkflowInstance(id: string, data: Patch, now: Time) returns (r: InstanceRecord)
      modifies this
      ensures storage == old(storage)[InstancesKey := UpsertList(old(Instances()), id, data, now)]
      ensures r == UpsertList(old(Instances()), id, data, now)[UpsertIndex(old(Instances()), id)]
      ensures webSockets == old(webSockets) && sent == old(sent)
    {
      var instances := if InstancesKey in storage then storage[InstancesKey] else [];
      var index := FindIndex(instances, id);
      ghost var before := instances;
      if index < 0 {
        instances := instances + [Fresh(id, now)];
        index := |instances| - 1;
      }
      instances := instances[index := Merge(instances[index], data, now)];
      assert instances == UpsertList(before, id, data, now);
      storage := storage[InstancesKey := instances];
      r := instances[index];
    }

    method RemoveWorkflowInstance(id: string)
      modifies this
      ensures InstancesKey !in old(storage) ==> storage == old(storage)
      ensures InstancesKey in old(storage) ==>
        storage == old(storage)[InstancesKey := RemoveFirst(old(storage[InstancesKey]), id)]
      ensures webSockets == old(webSockets) && sent == old(sent)
    {
      if InstancesKey !in storage {
        return;
      }
      var instances := storage[InstancesKey];
      var index := FindIndex(instances, id);
      if index != -1 {
        instances := instances[..index] + instances[index + 1..];
      }
      storage := storage[InstancesKey := instances];
    }

    method GetWorkflowInstances() returns (r: seq<InstanceRecord>)
      ensures InstancesKey !in storage ==> r == []
      ensures InstancesKey in storage ==> r == storage[InstancesKey]
    {
      if InstancesKey !in storage {
        return [];
      }
      r := storage[InstancesKey];
    }

    method GetWorkflowInstance(id: string) returns (r: Option<InstanceRecord>)
      ensures r.None? <==> forall j :: 0 <= j < |Instances()| ==> Instances()[j].id != id
      ensures r.Some? ==> r.value.id == id && r.value == Instances()[IndexOf(Instances(), id)]
    {
      if InstancesKey !in storage {
        return None;
      }
      var instances := storage[InstancesKey];
      assert instances == Instances();
      var index := FindIndex(instances, id);
      if index < 0 {
        return None;
      }
      r := Some(instances[index]);
    }

    /** The `forEach` over `ctx.getWebSockets()`: sends the record to each accepted socket that is open. */
    method SendToOpen(record: InstanceRecord, open: set<SocketId>)
      modifies this
      ensures sent == old(sent) + Fanout(webSockets, open, record)
      ensures storage == old(storage) && webSockets == old(webSockets)
    {
      var sockets := webSockets;
      var i := 0;
      while i < |sockets|
        invariant 0 <= i <= |sockets|
        invariant sent == old(sent) + Fanout(sockets[..i], open, record)
        invariant storage == old(storage) && webSockets == sockets
      {
        assert sockets[..i + 1][..i] == sockets[..i];
        if sockets[i] in open {
          sent := sent + [Delivery(sockets[i], record)];
        }
        i := i + 1;
      }
      assert sockets[..|sockets|] == sockets;
    }

    /** Upserts the event's fields, then sends the merged record to every open accepted socket. */
    method Broadcast(event: BroadcastEvent, now: Time, open: set<SocketId>)
      requires Valid()
      modifies this
      ensures Valid()
      ensures storage == old(storage)[InstancesKey :=
        UpsertList(old(Instances()), event.workflowInstanceId, EventPatch(event), now)]
      ensures sent == old(sent) + Fanout(webSockets, open,
        UpsertList(old(Instances()), event.workflowInstanceId, EventPatch(event), now)[UpsertIndex(old(Instances()), event.workflowInstanceId)])
      ensures webSockets == old(webSockets)
      ensures forall k :: SendsTo(sent[|old(sent)|..], k) == if k in webSockets && k in open then 1 else 0
    {
      var updated := UpsertWorkflowInstance(event.workflowInstanceId, EventPatch(event), now);
      SendToOpen(updated, open);
      assert sent[|old(sent)|..] == Fanout(webSockets, open, updated);
      forall k ensures SendsTo(sent[|old(sent)|..], k) == if k in webSockets && k in open then 1 else 0 {
        FanoutOncePerOpenSocket(webSockets, open, updated, k);
      }
    }
  }
}
