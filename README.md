# plotter: workspace registry and session relay, in Dafny

The plotter server relays CSV tables, posted over HTTP, to browser sessions
connected over websockets. Each session owns a numeric workspace id. This
project models the part of `src/plotter/plotter.go` that carries the
correctness obligations:

- **Registry** (`registry.dfy`). `PublishCtx` is a class with one field, `c: map<int32, Chan>`.
  - `Get` looks an id up.
  - `Register` scans the live keys for the largest one, adds 1 in 32-bit arithmetic, and inserts a fresh open channel.
  - `Close` closes and removes an entry. It does nothing for an absent id.
  - A Go channel is a `Chan` object with one `closed` flag.
  - The ghost functions `MaxKey` and `NextId` specify the scan and the allocation.
  - The invariant `Valid` says three things: every registered channel is open, no two ids share a channel, and 0 is never an id. The scan starts from 0, and `max += 1` gives a value of at least 1 or wraps to -2^31, never 0.
  - `KeysPositive` says every key is at least 1. It holds until the allocation wraps around.
- **Ingest handler** (`ingest.dfy`). `Plotter` makes the decisions of `plotter` in the source's order: header present, then id registered, then body parsed, then one send. `strconv.Atoi` and the CSV reader are given as their results. The send is returned as a `Send(channel, data)` reply.
- **Session relay** (`relay.dfy`). `wshandler` is an event-driven state machine.
  - Each outcome of the `select` is one `Event`: `conndead` closed, or a payload received together with its `json.Marshal` result and its write result.
  - `Step` is one pass of the loop, and `Run` runs the loop to its first exit.
  - `RunCharacterized` gives an independent, event-by-event description of a run.
  - `WsHandler` registers, announces, loops over the events, and on every exit calls the deferred `Close(workspace)` once.
- **Scenarios** (`scenarios.dfy`). These are client methods that drive the three parts together. They cover:
  - the first two ids are 1 and 2;
  - posts to unknown or unparsable workspaces get 404 without reading the body;
  - a double close is the same as one close;
  - a released maximum is allocated again;
  - a disconnected session has released its id.

Three behaviours of the code are kept as written:

- A post with a malformed body to an *unregistered* workspace gets 404, not 400. The lookup comes before parsing (plotter.go:71-81).
- The relay does not test whether its channel was closed when it receives from it (plotter.go:125). A closed channel is therefore not an exit of the loop. While ids are unique, that is before the allocation wraps, a session's channel stays open for the whole loop: only that session's own deferred `Close` closes it.
- Ids are Go `int32` values, and `max += 1` wraps around.
  - When the live id 2^31 - 1 exists, `Register` returns -2^31 (`NextId`).
  - While -2^31 is live, the next `Register` returns -2^31 again and replaces the live entry (`WrappedIdCollides`).
  - So "never returns an id already in use" holds only while the largest live id is below 2^31 - 1. `NextId` and `Register` state both cases.

## Model

| member | source | states |
|---|---|---|
| Registry.Wrap32 | src/plotter/plotter.go:41 | int32 arithmetic: the result agrees with the mathematical value modulo 2^32, and equals it when that value is in range |
| Registry.MaxKey | src/plotter/plotter.go:35-40 | the value the key scan ends with is at least 0, at least every key, and is either 0 or a key |
| Registry.NextId | src/plotter/plotter.go:35-41 | the allocated id is 1 on an empty table; below the int32 limit it is the largest key + 1, at least 1, greater than every live key and so not in use; at the limit it wraps to -2^31; it is never 0 |
| Registry.SuccessiveIdsIncrease | src/plotter/plotter.go:35-44 | two registrations with no release between them get consecutive ids |
| Registry.ReleasedMaximumIsReused | src/plotter/plotter.go:35-41 | once the largest id is released, the next allocation is no larger than it, and is exactly it when its predecessor is live |
| Registry.WrappedIdCollides | src/plotter/plotter.go:41-43 | with 2^31 - 1 live, the allocation is -2^31, and while -2^31 is live it is allocated again |
| Registry.Chan.constructor | src/plotter/plotter.go:42 | `make(chan Data)` gives an open channel |
| Registry.PublishCtx.constructor | src/plotter/plotter.go:140 | the registry starts empty, valid, with all keys positive |
| Registry.PublishCtx.Get | src/plotter/plotter.go:23-30 | returns the channel stored for the id, or nil when the id is absent; changes nothing |
| Registry.PublishCtx.Register | src/plotter/plotter.go:32-45 | returns NextId of the old keys and a fresh open channel; the new table is the old one plus exactly that entry (the channel comes from `Chan.constructor`); validity, including that 0 is never an id, is kept at every size, and key positivity is kept below the int32 limit |
| Registry.PublishCtx.Close | src/plotter/plotter.go:47-54 | the new table is the old one without the id; a registered id's channel is closed; only that channel may change; an absent id changes nothing, so a second Close is a no-op; validity and key positivity are kept |
| Ingest.WorkspaceOf | src/plotter/plotter.go:70-71 | a malformed header gives id 0 (the Atoi error is ignored); a number gives its int32 truncation, equal to it when in range |
| Ingest.Plotter | src/plotter/plotter.go:63-83 | no header gives 404; an unregistered id gives 404 without reading the body; a registered id reads the body, gives 400 on a parse error, and otherwise one send of exactly the parsed cells on that id's channel; when 0 is not an id, which `Valid` guarantees, a malformed header gives 404 without reading the body; on a valid registry the channel sent on is open |
| Relay.Run | src/plotter/plotter.go:121-136 | `Run` folds `Step`, one pass of the `select` at lines 122-135, over the events; the loop only appends to what was sent and dropped; an ended session stays as it is; a live session never ends for an announce failure |
| Relay.FirstEnd | src/plotter/plotter.go:121-136 | the index of the first event that ends the session (conndead or a failed data write), or the number of events when none does |
| Relay.RunCharacterized | src/plotter/plotter.go:121-136 | a live run sends exactly the payloads that encoded and were written before the first ending event, drops exactly those that failed to encode, and ends for that event's reason or stays live |
| Relay.SessionEndsIff | src/plotter/plotter.go:121-136 | an announced session ends if and only if some event ends it; it ends Disconnected exactly when the first such event is conndead, and WriteFailed exactly when it is a failed write |
| Relay.AnnounceFailureEnds | src/plotter/plotter.go:104-108 | a failed announce write (the state `Opening` gives) ends the session before any event, with nothing sent |
| Relay.EncodeFailureContinues | src/plotter/plotter.go:126-130 | a payload that fails to encode is counted as dropped and the loop continues with the next event |
| Relay.EventsAfterExitIgnored | src/plotter/plotter.go:121-136 | once the session has ended, later events change nothing |
| Relay.WsHandler | src/plotter/plotter.go:92-137 | a failed upgrade registers nothing; otherwise the session's id is NextId of the old keys and its relay state is the run of the events; every exit calls Close exactly once, closes the channel and removes the id, which below the int32 limit restores the old table exactly; a session still live keeps its open channel registered |

## Left out

- The mutex in each registry method and all interleavings: each method is one atomic step.
- The reader goroutine of `wshandler`: only its `conndead` signal is kept, as the `ConnDead` event.
- Blocking channel semantics. The unbuffered send in `plotter` and the receive in the relay meet as a rendezvous; here the send is the `Send` reply, and the relay takes the received payload as an event input.
- A sender that passed `Get` and then sends on a channel that a concurrent `Close` has since closed. In Go this is a runtime panic. It is a concurrency hazard of the source and is not modelled.
- `strconv.Atoi`, the CSV reader, `json.Marshal`, the websocket upgrade, `WriteMessage` and `NextReader`. Each is an input result. For an out-of-range header, `Atoi` reports a clamped value and an error; that value is passed as `Number(n)`.
- `conn.Close` (deferred, and called by the reader goroutine): the connection is not modelled as state.
- The log calls at plotter.go:78, 96, 106, 128 and 132: they only write diagnostics.
- A relay whose channel was closed by another session's `Close` after an id collision (see `WrappedIdCollides`). Its receive then yields zero-value `Data` on every pass, and it writes `{"Cells":null}` until a write fails or `conndead` fires. `Event` has no closed-channel case, so this behaviour is not modelled.
- The text of the announce message is abstracted to `Announce(workspace)`. It is produced by `fmt.Sprintf`.
- `viewer`, `main`'s routing and server startup, and the HTML/JavaScript page templates in static.go and src/plotter/static.go: these are presentation and plumbing.
- Relay.WsHandler: when the events run out with no exit, the real loop would block in `select`. The model returns a live session at that point.
