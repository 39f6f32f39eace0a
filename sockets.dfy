/**
 * Fan-out of one message to a list of sockets: `sockets.forEach(ws =>
 * ws.readyState === WebSocket.OPEN && ws.send(message))`.
 */
module Sockets {
  import opened JsSet

  /** A websocket handle; which handles exist is the runtime's business. */
  type SocketId = nat

  /** One `ws.send(message)` call. */
  datatype Delivery<M> = Delivery(socket: SocketId, message: M)

  /** The sends the loop makes, in visiting order; `open` holds the sockets whose `readyState` is OPEN. */
  function Fanout<M>(sockets: seq<SocketId>, open: set<SocketId>, message: M): (r: seq<Delivery<M>>)
    ensures |r| <= |sockets|
    ensures forall i :: 0 <= i < |r| ==> r[i].message == message && r[i].socket in sockets && r[i].socket in open
    decreases |sockets|
  {
    if sockets == [] then []
    else
      var last := sockets[|sockets| - 1];
      Fanout(sockets[..|sockets| - 1], open, message) + (if last in open then [Delivery(last, message)] else [])
  }

  /** The number of sends addressed to socket `k`. */
  function SendsTo<M>(ds: seq<Delivery<M>>, k: SocketId): nat
    decreases |ds|
  {
    if ds == [] then 0
    else SendsTo(ds[..|ds| - 1], k) + (if ds[|ds| - 1].socket == k then 1 else 0)
  }

  lemma SendsToSnoc<M>(ds: seq<Delivery<M>>, d: Delivery<M>, k: SocketId)
    ensures SendsTo(ds + [d], k) == SendsTo(ds, k) + (if d.socket == k then 1 else 0)
  {
    assert (ds + [d])[..|ds|] == ds;
  }

  /** Every registered open socket gets exactly one message; every other socket gets none. */
  lemma {:induction false} FanoutOncePerOpenSocket<M>(sockets: seq<SocketId>, open: set<SocketId>, message: M, k: SocketId)
    requires NoDuplicates(sockets)
    ensures SendsTo(Fanout(sockets, open, message), k) == if k in sockets && k in open then 1 else 0
    decreases |sockets|
  {
    if sockets != [] {
      var init, last := sockets[..|sockets| - 1], sockets[|sockets| - 1];
      assert NoDuplicates(init) by {
        forall i, j | 0 <= i < j < |init| ensures init[i] != init[j] {
          assert init[i] == sockets[i] && init[j] == sockets[j];
        }
      }
      FanoutOncePerOpenSocket(init, open, message, k);
      assert last !in init by {
        forall j | 0 <= j < |init| ensures init[j] != last {
          assert init[j] == sockets[j];
        }
      }
      assert k in sockets <==> k in init || k == last by {
        assert sockets == init + [last];
      }
      var f := Fanout(init, open, message);
      if last in open {
        assert Fanout(sockets, open, message) == f + [Delivery(last, message)];
        SendsToSnoc(f, Delivery(last, message), k);
      } else {
        assert Fanout(sockets, open, message) == f + [];
        assert f + [] == f;
      }
    }
  }
}
