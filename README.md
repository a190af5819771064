# Broadcast hub — a Dafny model

This project models the hub of a small websocket chat server (`main.go`).
The hub owns the registry of connected clients. That registry maps a connection
handle to a client record whose only state is a `closing` flag. The hub's loop
(`runHub`) handles three kinds of event:

- **register** installs a new record for a connection;
- **broadcast** spawns one dispatch per registered connection;
- **unregister** deletes a connection from the registry.

A dispatch writes the message to its connection unless the record is already
closing. When the write fails, the dispatch marks the record closing, writes a
close frame, closes the connection and sends an unregister event for its own
handle back to the loop.

The model is sequential. The caller chooses the order of events, which is all
that the loop's `select` promises. Each dispatch is one atomic step, which is
what holding the record's mutex for the whole dispatch gives.

Files:

- `client.dfy`, module `ClientRecord`: the record (`Client`, a class with
  the mutable `closing` flag). It also has the outcome of one dispatch
  (`Attempt`) and the outcomes of a series of dispatches to one record
  (`Outcomes`), with lemmas about a record's lifecycle.
- `hub.dfy`, module `ChatHub`:
  - the connection handle (`Conn`, a class that records the frames the peer
    receives and whether the hub closed it);
  - the `Hub` class, with the registry `clients: map<Conn, Client>` and
    the unregister channel as a queue `unregisterQueue: seq<Conn>`;
  - one method per event and one for a dispatch.
  Records are objects, so a dispatch spawned before a handle was registered
  again still holds the old record. The invariant `Hub.Valid` says two
  things. Each registered record belongs to its own handle. Every registered
  record that is closing still has an unregister event for its handle in the
  queue. `Hub.Broadcast` leaves the order of its dispatches open, as Go's
  map iteration order is.
- `scenario.dfy`, module `HubScenario`: the event rules played out on three
  clients, one of which fails.

The model follows the code where the system's design notes say more. The
notes call a record closing once a write failed or the connection is being
torn down. In the code only a failed write in a dispatch sets the flag, and
the model does the same.

## Model

| member | source | states |
|---|---|---|
| `ClientRecord.Client.constructor` | main.go:80 | a new client record is not closing |
| `ClientRecord.Outcomes` | main.go:88-101 | a series of dispatches to one record yields one outcome per dispatch; each dispatch's flag is the previous one's flag after its outcome |
| `ClientRecord.ClosingRecordIsSkipped` | main.go:91-93 | a dispatch to a record already closing writes nothing and emits nothing, whatever the write would report |
| `ClientRecord.FreshRecordOutcome` | main.go:91-101 | for a new record, dispatch i writes iff no earlier write failed and its own write succeeds; it fails iff no earlier write failed and its own fails; it is skipped iff an earlier write failed |
| `ClientRecord.FailsAtMostOnce` | main.go:94-100 | over any series of dispatches a record fails at most once, so it emits at most one unregister: exactly one when it starts open and some write fails, none otherwise |
| `ClientRecord.NoWriteAfterFailure` | main.go:91-95 | after a record's dispatch fails, every later dispatch to it is skipped |
| `ChatHub.AfterUnregisters` | main.go:105-107 | handling a queue of unregister events removes exactly the queued handles and keeps every other entry with its record; an absent handle is a no-op |
| `ChatHub.Hub.constructor` | main.go:16 | the registry starts empty, with no unregister event pending |
| `ChatHub.Hub.Register` | main.go:79-80 | `h` maps to a new record that is not closing and replaces any earlier record; other entries and the queue are unchanged; the invariant is kept |
| `ChatHub.Hub.Unregister` | main.go:105-107 | `h` is removed and every other entry is kept; if `h` was absent the registry is unchanged; the invariant is kept |
| `ChatHub.Hub.RequestUnregister` | main.go:45-46 | a send on the unregister channel appends the handle to the queue; the registry is untouched |
| `ChatHub.Hub.ReceiveUnregister` | main.go:105-107 | the oldest queued unregister event is taken off the queue and applied to the registry; with nothing queued, nothing changes |
| `ChatHub.Hub.Broadcast` | main.go:84-103 | one dispatch per registered handle: the targets are exactly the registry's handles and no handle appears twice; each dispatch carries the record mapped to its handle now and the message; the registry is not modified |
| `ChatHub.FanOutSize` | main.go:87-102 | a fan-out that addresses each registered handle exactly once has as many dispatches as the registry has entries |
| `ChatHub.Hub.Dispatch` | main.go:88-101 | a closing record is left alone: no frame, no event. A successful write appends the text frame and leaves the flag false. A failed write sets `closing`, appends a close frame, closes the connection and queues one unregister for the dispatch's own handle. The registry is never changed. A dispatch whose record belongs to its handle keeps the invariant |
| `ChatHub.DrainedRegistryHasNoClosingRecord` | main.go:94-107 | once every queued unregister event has been handled, no registered record is closing |
| `HubScenario.ThreeClientsOneFails` | main.go:79-107 | A, B and C register. All receive "hi". A's write of "bye" fails, so A gets a close frame and is closed while B and C receive "bye". The next broadcast targets only B and C. A second unregister of A, from its own cleanup, is a no-op |

## Left out

- HTTP setup is not modelled because it is plumbing over a web framework: the
  application, the static page, the upgrade-required middleware and the route
  (main.go:22-39, main.go:44).
- Flag parsing and listening on the address (main.go:71-73) are process
  configuration and I/O.
- The connection's read loop (main.go:50-68) is left out. It sends register
  and broadcast events, which are arguments of `Hub.Register` and
  `Hub.Broadcast` here. Only its deferred unregister send (main.go:45-46) is
  modelled, as `Hub.RequestUnregister`, because it is the second unregister a
  failing connection can get. Its own `c.Close()` (main.go:47) is not
  modelled.
- Websocket writes and `Close` (main.go:94, main.go:98-99) are foreign calls.
  The result of the text write is the `writeOk` argument of `Hub.Dispatch`.
  The frames the peer receives and the closed state are fields of `Conn`.
  The close frame is recorded as sent because the source ignores that
  write's result.
- Goroutines, the per-record mutex, the `select` and channel blocking
  (main.go:17-19, main.go:42, main.go:78, main.go:88-90) are concurrency.
  Event order is chosen by the caller, and each dispatch runs as one atomic
  step. The register and broadcast channels are not queues in the model.
  Only the unregister channel is, because the hub feeds it itself. Its
  capacity is unbounded in the model; in the source the channel is
  unbuffered and a failing dispatch blocks until the loop receives.
- Logging (main.go:56, 66, 81, 85, 96, 109) has no behaviour to model.
- ChatHub.Hub.Dispatch: the invariant is promised only for a dispatch whose record
  was created for its handle (`Owns`). `Hub.Broadcast` guarantees this for
  every dispatch it returns, and records are never reused.
