/**
 * The websocket broadcaster durable object: the set of connected sockets, the
 * stored list of workflow instance ids, and the key-value storage the
 * orchestrator keeps its pending events and snapshots in.
 */
module Registry {
  import opened Wrappers
  import opened JsSet
  import opened Sockets
  import Machine

  const InstanceIdsKey: string := "workflow-instances"

  /** What a storage entry holds once `JSON.parse` has read it. */
  datatype Value =
    | IdList(ids: seq<string>)
    | EventJson(eventType: string)
    | SnapshotJson(snapshot: Machine.Snapshot)

  /** `storage.get(key)`, with `None` for a missing key. */
  function Get(storage: map<string, Value>, key: string): (r: Option<Value>)
    ensures r.Some? <==> key in storage
    ensures r.Some? ==> r.value == storage[key]
  {
    if key in storage then Some(storage[key]) else None
  }

  /** Storage reads back what was last written under a key, nothing after a delete, and is unaffected at other keys. */
  lemma ReadAfterWrite(storage: map<string, Value>, key: string, value: Value, other: string)
    requires other != key
    ensures Get(storage[key := value], key) == Some(value)
    ensures Get(storage - {key}, key) == None
    ensures Get(storage[key := value], other) == Get(storage, other)
    ensures Get(storage - {key}, other) == Get(storage, other)
  {
  }

  /** A notification: its property names and their values. */
  type Notice = map<string, string>

  /** `{...event, time}`: the event's properties plus `time`, which wins over any `time` the event has. */
  function Stamp(event: Notice, time: string): (r: Notice)
    ensures r.Keys == event.Keys + {"time"} && r["time"] == time
    ensures forall k :: k in event && k != "time" ==> r[k] == event[k]
  {
    event["time" := time]
  }

  /** The id list `addWorkflowInstanceId` writes, or `None` when the stored value is not a list (parsing it throws). */
  function IdsAfterAdd(stored: Option<Value>, id: string): (r: Option<seq<string>>)
    ensures stored.None? ==> r == Some([id])
    ensures r.Some? ==> NoDuplicates(r.value)
  {
    match stored
    case None => Some([id])
    case Some(IdList(ids)) => Some(Add(FromArray(ids), id))
    case Some(_) => None
  }

  /** The id list `removeWorkflowInstanceId` writes, if it writes one. */
  function IdsAfterRemove(stored: Option<Value>, id: string): (r: Option<seq<string>>)
    ensures stored.None? ==> r.None?
  {
    match stored
    case Some(IdList(ids)) => Some(Delete(FromArray(ids), id))
    case _ => None
  }

  /** Over a duplicate-free list, adding keeps the old ids in order and appends a new one. */
  lemma AddKeepsOrder(ids: seq<string>, id: string)
    requires NoDuplicates(ids)
    ensures IdsAfterAdd(Some(IdList(ids)), id) == Some(if id in ids then ids else ids + [id])
  {
    FromArrayOfSet(ids);
  }

  /** Adding an id holds exactly the old ids and the new one. */
  lemma AddMembers(ids: seq<string>, id: string, x: string)
    ensures x in IdsAfterAdd(Some(IdList(ids)), id).value <==> x in ids || x == id
  {
    FromArrayMembers(ids);
  }

  /** Adding the same id twice is the same as adding it once. */
  lemma AddIsIdempotent(stored: Option<Value>, id: string)
    requires IdsAfterAdd(stored, id).Some?
    ensures IdsAfterAdd(Some(IdList(IdsAfterAdd(stored, id).value)), id) == IdsAfterAdd(stored, id)
  {
    var once := IdsAfterAdd(stored, id).value;
    FromArrayOfSet(once);
  }

  /** Over a duplicate-free list, removing deletes only `id`: the others stay in order, and an absent id changes nothing. */
  lemma RemoveKeepsOthers(before: seq<string>, id: string, after: seq<string>)
    requires NoDuplicates(before + [id] + after)
    ensures IdsAfterRemove(Some(IdList(before + [id] + after)), id) == Some(before + after)
  {
    var ids := before + [id] + after;
    FromArrayOfSet(ids);
    assert id !in before by {
      forall k | 0 <= k < |before| ensures before[k] != id {
        assert before[k] == ids[k] && id == ids[|before|];
      }
    }
    assert id !in after by {
      forall k | 0 <= k < |after| ensures after[k] != id {
        assert after[k] == ids[|before| + 1 + k] && id == ids[|before|];
      }
    }
    DeleteMember(before, id, after);
  }

  lemma RemoveAbsentId(ids: seq<string>, id: string)
    requires NoDuplicates(ids) && id !in ids
    ensures IdsAfterRemove(Some(IdList(ids)), id) == Some(ids)
  {
    FromArrayOfSet(ids);
    DeleteAbsent(ids, id);
  }

  /** Removing leaves a duplicate-free list without `id`. */
  lemma RemoveResult(ids: seq<string>, id: string, x: string)
    ensures NoDuplicates(IdsAfterRemove(Some(IdList(ids)), id).value)
    ensures x in IdsAfterRemove(Some(IdList(ids)), id).value <==> x in ids && x != id
  {
    FromArrayMembers(ids);
    DeleteMembers(FromArray(ids), id);
    DeleteKeepsNoDuplicates(FromArray(ids), id);
  }

  /** Removing a freshly added id gives back the list it was added to. */
  lemma RemoveUndoesAdd(ids: seq<string>, id: string)
    requires NoDuplicates(ids) && id !in ids
    ensures IdsAfterRemove(Some(IdList(IdsAfterAdd(Some(IdList(ids)), id).value)), id) == Some(ids)
  {
    AddKeepsOrder(ids, id);
    FromArrayOfSet(ids + [id]);
    DeleteUndoesAdd(ids, id);
  }

  class WebSocketDO {
    /** `sockets`: the connected server-side sockets, a `Set` in insertion order. */
    var sockets: seq<SocketId>
    /** `ctx.storage`. */
    var storage: map<string, Value>
    /** Every `ws.send` made so far, in order. */
    var sent: seq<Delivery<Notice>>

    ghost predicate Valid()
      reads this
    {
      NoDuplicates(sockets)
    }

    /** `sockets = new Set()` starts empty; `ctx.storage` is durable and holds whatever an earlier incarnation wrote. */
    constructor (stored: map<string, Value>)
      ensures Valid() && sockets == [] && storage == stored && sent == []
    {
      sockets := [];
      storage := stored;
      sent := [];
    }

    /** `fetch`: an upgrade request registers its server socket (101); any other request gets 400. */
    method Fetch(upgrade: bool, server: SocketId) returns (status: int)
      requires Valid()
      modifies this
      ensures Valid()
      ensures upgrade ==> status == 101 && sockets == Add(old(sockets), server)
      ensures !upgrade ==> status == 400 && sockets == old(sockets)
      ensures storage == old(storage) && sent == old(sent)
    {
      if upgrade {
        sockets := Add(sockets, server);
        status := 101;
      } else {
        status := 400;
      }
    }

    /** The socket's `close` listener. */
    method Close(server: SocketId)
      requires Valid()
      modifies this
      ensures Valid()
      ensures sockets == Delete(old(sockets), server)
      ensures server !in sockets
      ensures storage == old(storage) && sent == old(sent)
    {
      DeleteKeepsNoDuplicates(sockets, server);
      DeleteMembers(sockets, server);
      sockets := Delete(sockets, server);
    }

    function KvGet(key: string): (r: Option<Value>)
      reads this
      ensures r.Some? <==> key in storage
      ensures r.Some? ==> r.value == storage[key]
    {
      Get(storage, key)
    }

    method KvSet(key: string, value: Value)
      modifies this
      ensures storage == old(storage)[key := value]
      ensures KvGet(key) == Some(value) && forall k :: k != key ==> KvGet(k) == old(KvGet(k))
      ensures sockets == old(sockets) && sent == old(sent)
    {
      storage := storage[key := value];
    }

    method KvDelete(key: string)
      modifies this
      ensures storage == old(storage) - {key}
      ensures KvGet(key) == None && forall k :: k != key ==> KvGet(k) == old(KvGet(k))
      ensures sockets == old(sockets) && sent == old(sent)
    {
      storage := storage - {key};
    }

    /** With nothing stored, writes `[id]`; otherwise writes the stored ids as a `Set` with `id` added. */
    method AddWorkflowInstanceId(id: string) returns (ok: bool)
      modifies this
      ensures ok <==> IdsAfterAdd(old(KvGet(InstanceIdsKey)), id).Some?
      ensures ok ==> storage == old(storage)[InstanceIdsKey := IdList(IdsAfterAdd(old(KvGet(InstanceIdsKey)), id).value)]
      ensures !ok ==> storage == old(storage)
      ensures sockets == old(sockets) && sent == old(sent)
    {
      var existing := KvGet(InstanceIdsKey);
      if existing.None? {
        KvSet(InstanceIdsKey, IdList([id]));
        return true;
      }
      if !existing.value.IdList? {
        return false;
      }
      var members := FromArray(existing.value.ids);
      members := Add(members, id);
      KvSet(InstanceIdsKey, IdList(members));
      ok := true;
    }

    /** With nothing stored, does nothing; otherwise writes the stored ids as a `Set` with `id` deleted. */
    method RemoveWorkflowInstanceId(id: string) returns (ok: bool)
      modifies this
      ensures ok <==> (InstanceIdsKey !in old(storage) || old(storage[InstanceIdsKey]).IdList?)
      ensures IdsAfterRemove(old(KvGet(InstanceIdsKey)), id).Some? ==>
        storage == old(storage)[InstanceIdsKey := IdList(IdsAfterRemove(old(KvGet(InstanceIdsKey)), id).value)]
      ensures IdsAfterRemove(old(KvGet(InstanceIdsKey)), id).None? ==> storage == old(storage)
      ensures sockets == old(sockets) && sent == old(sent)
    {
      var existing := KvGet(InstanceIdsKey);
      if existing.None? {
        return true;
      }
      if !existing.value.IdList? {
        return false;
      }
      var members := FromArray(existing.value.ids);
      members := Delete(members, id);
      KvSet(InstanceIdsKey, IdList(members));
      ok := true;
    }

    /** Sends the event, stamped with `time`, to every registered socket that is open, in registration order. */
    method Broadcast(event: Notice, time: string, open: set<SocketId>)
      requires Valid()
      modifies this
      ensures Valid()
      ensures sent == old(sent) + Fanout(sockets, open, Stamp(event, time))
      ensures forall k :: SendsTo(sent[|old(sent)|..], k) == if k in sockets && k in open then 1 else 0
      ensures sockets == old(sockets) && storage == old(storage)
    {
      var message := Stamp(event, time);
      var i := 0;
      while i < |sockets|
        invariant 0 <= i <= |sockets|
        invariant sent == old(sent) + Fanout(sockets[..i], open, message)
        invariant sockets == old(sockets) && storage == old(storage)
      {
        assert sockets[..i + 1][..i] == sockets[..i];
        if sockets[i] in open {
          sent := sent + [Delivery(sockets[i], message)];
        }
        i := i + 1;
      }
      assert sockets[..|sockets|] == sockets;
      assert sent[|old(sent)|..] == Fanout(sockets, open, message);
      forall k ensures SendsTo(sent[|old(sent)|..], k) == if k in sockets && k in open then 1 else 0 {
        FanoutOncePerOpenSocket(sockets, open, message, k);
      }
    }
  }
}
