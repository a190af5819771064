/**
 The hub's event rules played out on three clients, in one order the loop
 may choose: register A, B and C; broadcast "hi", which every client
 receives; broadcast "bye", whose write to A fails; handle A's queued
 unregister; broadcast "again", which is addressed only to B and C. A's own
 connection cleanup then queues a second unregister for A, which the loop
 handles as a no-op.
 */
module HubScenario {
  import opened ClientRecord
  import opened ChatHub

  /** The dispatch of a broadcast of `msg` over `reg` addressed to `h`. */
  method Pick(ds: seq<PendingDispatch>, reg: map<Conn, Client>, msg: string, h: Conn) returns (d: PendingDispatch)
    requires h in Targets(ds)
    requires forall i :: 0 <= i < |ds| ==> ds[i].conn in reg && ds[i].rec == reg[ds[i].conn] && ds[i].msg == msg
    ensures d in ds && h in reg && d == PendingDispatch(h, reg[h], msg)
  {
    ghost var i := InTargets(ds, h);
    assert ds[i] in ds;
    d :| d in ds && d.conn == h;
  }

  /** A hub with A, B and C registered, each with its own new record. */
  method RegisterThree() returns (hub: Hub, a: Conn, b: Conn, c: Conn)
    ensures fresh(hub) && fresh(a) && fresh(b) && fresh(c)
    ensures a != b && b != c && a != c
    ensures a.frames == b.frames == c.frames == [] && !a.closed && !b.closed && !c.closed
    ensures hub.clients.Keys == {a, b, c} && hub.unregisterQueue == []
    ensures fresh(hub.clients[a]) && fresh(hub.clients[b]) && fresh(hub.clients[c])
    ensures hub.clients[a] != hub.clients[b] && hub.clients[b] != hub.clients[c] && hub.clients[a] != hub.clients[c]
    ensures !hub.clients[a].closing && !hub.clients[b].closing && !hub.clients[c].closing
  {
    hub := new Hub();
    a := new Conn();
    b := new Conn();
    c := new Conn();
    hub.Register(a);
    var ra := hub.clients[a];
    hub.Register(b);
    var rb := hub.clients[b];
    hub.Register(c);
    assert hub.clients == map[a := ra, b := rb, c := hub.clients[c]];
  }

  /** One broadcast of `msg` over A, B and C, whose three dispatches run with
      A's write reporting `okA` and the others succeeding. */
  method BroadcastRound(hub: Hub, a: Conn, b: Conn, c: Conn, msg: string, okA: bool)
    requires a != b && b != c && a != c
    requires hub.clients.Keys == {a, b, c}
    requires hub.clients[a] != hub.clients[b] && hub.clients[b] != hub.clients[c] && hub.clients[a] != hub.clients[c]
    requires !hub.clients[a].closing && !hub.clients[b].closing && !hub.clients[c].closing
    modifies hub, a, b, c, hub.clients[a], hub.clients[b], hub.clients[c]
    ensures hub.clients == old(hub.clients)
    ensures hub.clients[a].closing == !okA && !hub.clients[b].closing && !hub.clients[c].closing
    ensures a.frames == old(a.frames) + [if okA then TextFrame(msg) else CloseFrame]
    ensures a.closed == (old(a.closed) || !okA)
    ensures b.frames == old(b.frames) + [TextFrame(msg)] && b.closed == old(b.closed)
    ensures c.frames == old(c.frames) + [TextFrame(msg)] && c.closed == old(c.closed)
    ensures hub.unregisterQueue == old(hub.unregisterQueue) + if okA then [] else [a]
  {
    var reg := hub.clients;
    var ds := hub.Broadcast(msg);
    var d := Pick(ds, reg, msg, a);
    var o := hub.Dispatch(d, okA);
    d := Pick(ds, reg, msg, b);
    o := hub.Dispatch(d, true);
    d := Pick(ds, reg, msg, c);
    o := hub.Dispatch(d, true);
  }

  /** The loop handles the failed client A's queued unregister, then a
      broadcast, then the second unregister for A that A's own connection
      cleanup sends. */
  method FailedClientLeaves(hub: Hub, a: Conn, b: Conn, c: Conn) returns (last: seq<PendingDispatch>, left: set<Conn>)
    requires a != b && b != c && a != c
    requires hub.clients.Keys == {a, b, c} && hub.unregisterQueue == [a]
    modifies hub
    ensures Targets(last) == {b, c} && |last| == 2
    ensures left == {b, c} && hub.clients.Keys == left && hub.unregisterQueue == []
  {
    var received := hub.ReceiveUnregister();
    assert hub.clients.Keys == {b, c};
    last := hub.Broadcast("again");
    FanOutSize(last, hub.clients);
    // A's connection cleanup unregisters A a second time: a no-op.
    hub.RequestUnregister(a);
    received := hub.ReceiveUnregister();
    left := hub.clients.Keys;
  }

  /** Register A, B and C; broadcast "hi", which all three receive; broadcast
      "bye", whose write to A fails; the next broadcast is addressed to B
      and C only and A ends up unregistered. */
  method ThreeClientsOneFails() returns (a: Conn, b: Conn, c: Conn, last: seq<PendingDispatch>, left: set<Conn>)
    ensures a.frames == [TextFrame("hi"), CloseFrame] && a.closed
    ensures b.frames == [TextFrame("hi"), TextFrame("bye")] && !b.closed
    ensures c.frames == [TextFrame("hi"), TextFrame("bye")] && !c.closed
    ensures Targets(last) == {b, c} && |last| == 2
    ensures left == {b, c}
  {
    var hub;
    hub, a, b, c := RegisterThree();
    BroadcastRound(hub, a, b, c, "hi", true);
    BroadcastRound(hub, a, b, c, "bye", false);
    last, left := FailedClientLeaves(hub, a, b, c);
  }
}
