/**
 The broadcast hub of main.go: the registry of connected clients and the
 three kinds of event its loop (`runHub`) handles — register, broadcast and
 unregister — plus the per-connection dispatch a broadcast spawns.

 The loop's `select` picks whichever channel is ready; here the caller picks
 the order by calling the methods. Register and broadcast events come from
 outside the hub and are method arguments. The unregister channel is also
 fed by the hub's own failed dispatches, so it is a field of the hub: a
 queue that `RequestUnregister` appends to and `ReceiveUnregister` takes
 from. Each spawned dispatch holds its record's lock for its whole run, so a
 call of `Dispatch` is one atomic step.
 */
module ChatHub {
  import opened ClientRecord

  /** A frame the hub wrote to a connection. */
  datatype Frame = TextFrame(text: string) | CloseFrame

  /** A client's connection: the opaque handle the registry is keyed by.
      Its fields record what the peer sees of the hub's writes; the
      websocket itself is not modelled. */
  class Conn {
    var frames: seq<Frame>
    var closed: bool

    constructor ()
      ensures frames == [] && !closed
    {
      frames := [];
      closed := false;
    }
  }

  /** One dispatch spawned by a broadcast: the handle, the record mapped to
      it when the broadcast was handled, and the message. */
  datatype PendingDispatch = PendingDispatch(conn: Conn, rec: Client, msg: string)

  /** The handles a batch of dispatches is addressed to. */
  function Targets(ds: seq<PendingDispatch>): set<Conn>
  {
    if ds == [] then {} else Targets(ds[..|ds| - 1]) + {ds[|ds| - 1].conn}
  }

  /** The registry after the queued unregister events `q` are handled in
      order: each removes its handle if present and is a no-op otherwise. */
  function AfterUnregisters(reg: map<Conn, Client>, q: seq<Conn>): (r: map<Conn, Client>)
    ensures r.Keys == reg.Keys - (set h | h in q)
    ensures forall h :: h in r ==> r[h] == reg[h]
    decreases |q|
  {
    if q == [] then reg else AfterUnregisters(reg - {q[0]}, q[1..])
  }

  lemma TargetsAppend(ds: seq<PendingDispatch>, d: PendingDispatch)
    ensures Targets(ds + [d]) == Targets(ds) + {d.conn}
  {
  }

  /** A handle is a target exactly when some dispatch is addressed to it;
      the index of one such dispatch is returned. */
  lemma {:induction false} InTargets(ds: seq<PendingDispatch>, h: Conn) returns (i: nat)
    requires h in Targets(ds)
    ensures i < |ds| && ds[i].conn == h
  {
    var init := ds[..|ds| - 1];
    if h == ds[|ds| - 1].conn {
      i := |ds| - 1;
    } else {
      i := InTargets(init, h);
    }
  }

  /** No two dispatches of `ds` are addressed to the same handle. */
  predicate Distinct(ds: seq<PendingDispatch>)
  {
    forall i, j :: 0 <= i < j < |ds| ==> ds[i].conn != ds[j].conn
  }

  /** Adding a dispatch for a handle not yet addressed keeps a batch free of
      duplicates. */
  lemma DistinctAppend(ds: seq<PendingDispatch>, d: PendingDispatch)
    requires Distinct(ds)
    requires forall i :: 0 <= i < |ds| ==> ds[i].conn != d.conn
    ensures Distinct(ds + [d])
  {
  }

  /** Every dispatch's handle is a target. */
  lemma {:induction false} TargetsContain(ds: seq<PendingDispatch>, i: nat)
    requires i < |ds|
    ensures ds[i].conn in Targets(ds)
  {
    if i < |ds| - 1 {
      assert ds[..|ds| - 1][i] == ds[i];
      TargetsContain(ds[..|ds| - 1], i);
    }
  }

  /** There are never more targets than dispatches, and exactly as many
      when the dispatches are addressed to pairwise different handles. */
  lemma {:induction false} DistinctTargets(ds: seq<PendingDispatch>)
    ensures |Targets(ds)| <= |ds|
    ensures |Targets(ds)| == |ds| <==> Distinct(ds)
  {
    if ds != [] {
      var init := ds[..|ds| - 1];
      var last := ds[|ds| - 1];
      DistinctTargets(init);
      if last.conn in Targets(init) {
        var i := InTargets(init, last.conn);
        assert ds[i].conn == ds[|ds| - 1].conn;
      } else {
        forall i | 0 <= i < |init|
          ensures ds[i].conn != last.conn
        {
          TargetsContain(init, i);
        }
        assert Distinct(init) ==> Distinct(ds);
      }
    }
  }

  /** Dispatches addressed once each to the handles of a registry are as
      many as its entries. */
  lemma FanOutSize(ds: seq<PendingDispatch>, reg: map<Conn, Client>)
    requires Distinct(ds) && Targets(ds) == reg.Keys
    ensures |ds| == |reg|
  {
    DistinctTargets(ds);
    assert |reg.Keys| == |reg|;
  }

  class Hub {
    /** The registry: connection handle to its current record. */
    var clients: map<Conn, Client>
    /** Unregister events waiting on the unregister channel, oldest first. */
    var unregisterQueue: seq<Conn>
    /** Every record the hub ever created, with the handle it was created
        for; records are never reused, so this never changes an entry. */
    ghost var owner: map<Client, Conn>

    /** The hub's invariant: each registered record was created for its own
        handle (so no two handles share a record), and every registered
        record that is closing has an Unregister for its handle still
        queued. */
    ghost predicate Valid()
      reads this, clients.Values
    {
      (forall h :: h in clients ==> clients[h] in owner && owner[clients[h]] == h) &&
      (forall h :: h in clients && clients[h].closing ==> h in unregisterQueue)
    }

    /** The dispatch's record was created for the dispatch's handle. */
    ghost predicate Owns(d: PendingDispatch)
      reads this
    {
      d.rec in owner && owner[d.rec] == d.conn
    }

    constructor ()
      ensures Valid()
      ensures clients == map[] && unregisterQueue == [] && owner == map[]
    {
      clients := map[];
      unregisterQueue := [];
      owner := map[];
    }

    /** A register event: `h` is mapped to a new record that is not closing,
        replacing any earlier record for `h`; nothing else changes. */
    method Register(h: Conn)
      modifies this
      ensures h in clients && fresh(clients[h]) && !clients[h].closing
      ensures clients == old(clients)[h := clients[h]]
      ensures unregisterQueue == old(unregisterQueue)
      ensures owner == old(owner)[clients[h] := h]
      ensures old(Valid()) ==> Valid()
    {
      var rec := new Client();
      clients := clients[h := rec];
      owner := owner[rec := h];
    }

    /** An unregister event for `h`: `h` is no longer registered and every
        other entry is kept; when `h` was not registered nothing changes. */
    method Unregister(h: Conn)
      modifies this`clients
      ensures clients == old(clients) - {h}
      ensures h !in old(clients) ==> clients == old(clients)
      ensures old(Valid()) ==> Valid()
    {
      clients := clients - {h};
    }

    /** A send on the unregister channel, as a failed dispatch and the
        connection's own cleanup both do. The registry is not touched. */
    method RequestUnregister(h: Conn)
      modifies this`unregisterQueue
      ensures unregisterQueue == old(unregisterQueue) + [h]
      ensures old(Valid()) ==> Valid()
    {
      unregisterQueue := unregisterQueue + [h];
    }

    /** The loop taking the next event off the unregister channel, if one is
        waiting, and handling it. */
    method ReceiveUnregister() returns (received: bool)
      modifies this`clients, this`unregisterQueue
      ensures received == (old(unregisterQueue) != [])
      ensures received ==> clients == AfterUnregisters(old(clients), old(unregisterQueue)[..1])
      ensures received ==> unregisterQueue == old(unregisterQueue)[1..]
      ensures !received ==> clients == old(clients) && unregisterQueue == []
      ensures old(Valid()) ==> Valid()
    {
      if unregisterQueue == [] {
        return false;
      }
      var h := unregisterQueue[0];
      Unregister(h);
      unregisterQueue := unregisterQueue[1..];
      assert old(unregisterQueue)[..1] == [h];
      return true;
    }

    /** A broadcast event: one dispatch per registered handle, each with the
        record currently mapped to it and the message, in no particular
        order. The registry is not changed. */
    method Broadcast(msg: string) returns (ds: seq<PendingDispatch>)
      ensures Targets(ds) == clients.Keys
      ensures forall i :: 0 <= i < |ds| ==> ds[i].conn in clients && ds[i].rec == clients[ds[i].conn] && ds[i].msg == msg
      ensures Distinct(ds)
      ensures Valid() ==> forall i :: 0 <= i < |ds| ==> Owns(ds[i])
    {
      ds := [];
      var reg := clients;
      var rest := reg.Keys;
      while rest != {}
        invariant rest <= reg.Keys
        invariant Targets(ds) == reg.Keys - rest
        invariant forall i :: 0 <= i < |ds| ==> ds[i].conn in reg && ds[i].conn !in rest
        invariant forall i :: 0 <= i < |ds| ==> ds[i].rec == reg[ds[i].conn] && ds[i].msg == msg
        invariant Distinct(ds)
        decreases rest
      {
        var h :| h in rest;
        var d := PendingDispatch(h, reg[h], msg);
        TargetsAppend(ds, d);
        DistinctAppend(ds, d);
        ds := ds + [d];
        rest := rest - {h};
      }
    }

    /** One spawned dispatch. A record already closing is left alone. Otherwise
        the message is written; if the write fails, the record is marked
        closing, a close frame is written, the connection is closed and one
        Unregister for the dispatch's own handle is queued. The registry is
        never touched. */
    method Dispatch(d: PendingDispatch, writeOk: bool) returns (o: Outcome)
      modifies this`unregisterQueue, d.rec, d.conn
      ensures o == Attempt(old(d.rec.closing), writeOk)
      ensures d.rec.closing == ClosingAfter(old(d.rec.closing), o)
      ensures d.conn.frames == old(d.conn.frames) + match o
        case Skipped => []
        case Written => [TextFrame(d.msg)]
        case Failed => [CloseFrame]
      ensures d.conn.closed == (old(d.conn.closed) || o == Failed)
      ensures unregisterQueue == old(unregisterQueue) + if o == Failed then [d.conn] else []
      ensures old(Valid()) && Owns(d) ==> Valid()
    {
      if d.rec.closing {
        return Skipped;
      }
      if writeOk {
        d.conn.frames := d.conn.frames + [TextFrame(d.msg)];
        return Written;
      }
      d.rec.closing := true;
      d.conn.frames := d.conn.frames + [CloseFrame];
      d.conn.closed := true;
      RequestUnregister(d.conn);
      return Failed;
    }
  }

  /** Once every queued unregister event has been handled, no registered
      record is closing: a connection whose write failed is gone from the
      registry, and every later broadcast leaves it out. */
  lemma DrainedRegistryHasNoClosingRecord(hub: Hub)
    requires hub.Valid()
    ensures forall h :: h in AfterUnregisters(hub.clients, hub.unregisterQueue) ==>
      !hub.clients[h].closing
  {
  }
}
