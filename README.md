# Ticket store actor, status parser, wrapping u32 and drop bomb — a Dafny model

This project models four independent pieces of the Rust exercises repository
and proves properties of each.

- **Bounded ticket-store actor** (`exercises/07_threads/09_bounded`, modules
  `TicketStore` and `BoundedActor`). A `TicketStoreClient` turns `insert` and
  `get` into `Command`s and try-sends them into a bounded mailbox. A full
  mailbox gives `OverloadedError`. One server owns the `TicketStore`, takes
  commands off the mailbox in arrival order, and answers each on the reply
  channel the command carries. The server leaves its loop only when the
  mailbox is empty and every sender is gone. The actor is modelled as a
  sequential state machine, the class `TicketService`:
  - `TrySend*` is the client's enqueue.
  - `Step` is one turn of the server loop.
  - `Server` is the loop, run until a receive finds the mailbox empty.
  - `AwaitReply` is the client's blocking receive on its reply channel.

  The class invariant ties the store and every reply channel to `Serve`. `Serve`
  is a pure function giving the store and the replies that serving a sequence
  of commands in order produces. The FIFO, one-reply-per-command, id and
  round-trip properties are lemmas about `Serve`.
- **`Status` parser** (`exercises/05_ticket_v2/15_outro/src/status.rs`, module
  `StatusParsing`). Case-insensitive parsing of `ToDo`, `InProgress` and `Done`,
  through both the `String` and the `&str` entry point. The parser's use of
  lower-casing is checked against an independent definition, "`s` is a casing
  of the word".
- **`WrappingU32`** (`exercises/04_traits/11_copy/src/lib.rs`, module
  `Wrapping`). Unsigned 32-bit addition modulo 2^32.
- **`DropBomb`** (`exercises/04_traits/12_drop/src/lib.rs`, module
  `DropGuard`). A class with an `isActive` field. `Drop` reports a panic
  exactly when the bomb is still active.

`store.rs` and `data.rs` are not part of this model. The store is abstract: a
map from id to ticket plus a counter. `AddTicket` hands out the counter as the
new id. It records a ticket with the draft's title and description and the
initial status `ToDo`. `GetTicket` is a lookup. Ids are unbounded naturals.

Both reply-channel disconnect paths are treated alike: the `panic!` in
`insert` (lib.rs:28) and the `unwrap` in `get` (lib.rs:41). The model shows
that neither is reachable. A waiting caller holds a sender, so the server
cannot have stopped before it answers.

`TicketStore` declares its own `Status` (`ToDo`, `InProgress`, `Done`) for the
tickets it stores, standing in for the crate's `data.rs`. The status parser
of `exercises/05_ticket_v2` belongs to another crate and is a separate module
with its own `Status` type.

## Model

| member | source | states |
|---|---|---|
| `BoundedActor.TicketService.Launch` | exercises/07_threads/09_bounded/src/lib.rs:45-51 | launch gives an empty mailbox of the given, fixed capacity, one client handle, and a running server over an empty store |
| `BoundedActor.TicketService.TrySend` | exercises/07_threads/09_bounded/src/lib.rs:22-25 | try_send succeeds exactly when the mailbox holds fewer than `capacity` commands; on success the command is appended at the tail with a fresh, empty reply channel; on failure nothing changes |
| `BoundedActor.TicketService.TrySendInsert` | exercises/07_threads/09_bounded/src/lib.rs:15-25 | the enqueue half of insert: with a full mailbox it returns `Err(OverloadedError)` and changes nothing; otherwise it enqueues `Insert(draft, channel)` and returns a channel not used before, opened empty, with every other channel kept |
| `BoundedActor.TicketService.TrySendGet` | exercises/07_threads/09_bounded/src/lib.rs:33-39 | the enqueue half of get: with a full mailbox it returns `Err(OverloadedError)` and changes nothing; otherwise it enqueues `Get(id, channel)` on a channel not used before, opened empty, with every other channel kept |
| `BoundedActor.TicketService.Step` | exercises/07_threads/09_bounded/src/lib.rs:70-91 | one receive: a non-empty mailbox loses its head, which is handled against the store and answered on its own channel; an empty mailbox with a live sender blocks with no change; an empty mailbox with no senders stops the server, the loop's only exit; a reply already delivered is never changed, and no channel is opened or closed |
| `BoundedActor.TicketService.Server` | exercises/07_threads/09_bounded/src/lib.rs:68-93 | the loop serves the whole mailbox in order: the final store and every channel's reply are those of `Serve` over the mailbox; it then stops exactly when no sender is left and otherwise waits; every reply delivered before the loop stays on its channel, and no channel is opened or closed |
| `BoundedActor.TicketService.AwaitReply` | exercises/07_threads/09_bounded/src/lib.rs:27-30 | the caller's blocking receive returns its command's reply, handled after every command ahead of it; every command queued ahead of it has been answered on its own channel by then; the server is still running, so the disconnected-reply path is never taken; replies delivered to other callers stay on their channels |
| `BoundedActor.TicketService.Insert` | exercises/07_threads/09_bounded/src/lib.rs:15-31 | insert on a full mailbox is `Err(OverloadedError)` with nothing changed; otherwise it returns the id `add_ticket` assigns once the commands ahead are served, and the store is that store plus the new ticket; every command queued ahead has been answered on its own channel, and replies already delivered to other callers stay on their channels |
| `BoundedActor.TicketService.Get` | exercises/07_threads/09_bounded/src/lib.rs:33-42 | get on a full mailbox is `Err(OverloadedError)` with nothing changed; otherwise it returns a copy of the lookup of `id` in the store the commands ahead leave, and adds no change of its own; every command queued ahead has been answered on its own channel, and replies already delivered to other callers stay on their channels |
| `BoundedActor.TicketService.CloneClient` | exercises/07_threads/09_bounded/src/lib.rs:9-12 | cloning a client adds one sender to the same mailbox and changes nothing else |
| `BoundedActor.TicketService.DropClient` | exercises/07_threads/09_bounded/src/lib.rs:86-89 | dropping a client removes one sender; the last drop is what lets the server's receive fail |
| `BoundedActor.Handle` | exercises/07_threads/09_bounded/src/lib.rs:72-85 | an Insert replies with the id `add_ticket` assigns and stores its ticket; a Get replies with a copy of the lookup and leaves the store unchanged |
| `BoundedActor.Serve` | exercises/07_threads/09_bounded/src/lib.rs:70-91 | serving commands one at a time keeps the store consistent, gives exactly one reply per command, and never moves the id counter back |
| `BoundedActor.ServeAppend` | exercises/07_threads/09_bounded/src/lib.rs:70-91 | serving `a + b` is serving `a` and then `b` from the store `a` left; the replies concatenate |
| `BoundedActor.ServeInOrder` | exercises/07_threads/09_bounded/src/lib.rs:70-85 | FIFO: the i-th reply is the i-th command handled against the store that the first i commands left |
| `BoundedActor.OneReplyPerCommand` | exercises/07_threads/09_bounded/src/lib.rs:72-85 | there is one reply per command, and each reply is of its command's kind: an id for an Insert, a lookup for a Get |
| `BoundedActor.GetsLeaveStoreUnchanged` | exercises/07_threads/09_bounded/src/lib.rs:79-85 | only inserts mutate the store: serving only gets leaves it exactly as it was |
| `BoundedActor.ServeKeepsTickets` | exercises/07_threads/09_bounded/src/lib.rs:76 | serving never removes or alters a ticket already in the store |
| `BoundedActor.ServeCounterGrows` | exercises/07_threads/09_bounded/src/lib.rs:76 | the store's id counter after a prefix of the commands is no larger than after any longer prefix |
| `BoundedActor.InsertIdsIncrease` | exercises/07_threads/09_bounded/src/lib.rs:76-77 | ids returned to inserts are fresh (at least the starting counter) and strictly increasing in service order, hence pairwise distinct |
| `BoundedActor.GetFindsEarlierInsert` | exercises/07_threads/09_bounded/src/lib.rs:76-84 | round trip: a get served after an insert, for the id that insert returned, replies with the ticket built from the inserted draft |
| `BoundedActor.GetOfUnissuedId` | exercises/07_threads/09_bounded/src/lib.rs:83-84 | a get for an id not yet handed out when it is served replies `None`, not an error |
| `BoundedActor.ExampleSession` | exercises/07_threads/09_bounded/src/lib.rs:15-51 | with capacity one: inserts return ids 0 and 1, each id fetches the ticket inserted under it, id 99 fetches `None`, and once the only client is dropped the server stops |
| `BoundedActor.TwoCallersSession` | exercises/07_threads/09_bounded/src/lib.rs:15-31 | with capacity two: one caller enqueues an insert, a second caller's `insert` drains the mailbox and gets id 1, and the first caller's channel then holds `Inserted(0)`, which stays there through the next `insert` (id 2) |
| `BoundedActor.OverloadSession` | exercises/07_threads/09_bounded/src/lib.rs:15-39 | with capacity one and nothing drained, a second enqueue is refused with `OverloadedError`; the mailbox holds only the first command and no id has been issued |
| `TicketStore.Empty` | exercises/07_threads/09_bounded/src/lib.rs:69 | the server starts from a consistent, empty store |
| `TicketStore.AddTicket` | exercises/07_threads/09_bounded/src/lib.rs:76 | add_ticket returns an id not yet in the store, records the draft's ticket under it, keeps every other ticket, and keeps the store consistent |
| `TicketStore.GetTicket` | exercises/07_threads/09_bounded/src/lib.rs:83-84 | get is a pure lookup: the stored ticket when the id is present, `None` otherwise; a found ticket carries the id it was looked up under, an id already handed out |
| `TicketStore.GetAfterAdd` | exercises/07_threads/09_bounded/src/lib.rs:76-84 | after add_ticket, looking up the new id gives the new ticket and every other id answers as before |
| `TicketStore.GetUnissued` | exercises/07_threads/09_bounded/src/lib.rs:83 | an id at or above the counter is not in the store, so its lookup is `None` |
| `StatusParsing.ToLower` | exercises/05_ticket_v2/15_outro/src/status.rs:22 | lower-casing keeps the length and folds each character independently (ASCII letters only) |
| `StatusParsing.TryFromString` | exercises/05_ticket_v2/15_outro/src/status.rs:21-29 | an `Ok` status is one whose literal is the lower-cased input; an error carries the original input, not the lower-cased one |
| `StatusParsing.TryFromStr` | exercises/05_ticket_v2/15_outro/src/status.rs:35-43 | the same promises for the `&str` entry point; the error carries `String::from(value)`, the input itself |
| `StatusParsing.CasingIffLowersTo` | exercises/05_ticket_v2/15_outro/src/status.rs:22-26 | for a lower-case word, lower-casing `s` yields the word exactly when `s` spells it with each letter in either case |
| `StatusParsing.ParsesExactlyCasings` | exercises/05_ticket_v2/15_outro/src/status.rs:22-26 | the input parses to a status exactly when it is a casing of that status's literal ("todo", "inprogress", "done") |
| `StatusParsing.FailsExactlyOnOthers` | exercises/05_ticket_v2/15_outro/src/status.rs:23-27 | parsing fails exactly when the input is no casing of any of the three literals |
| `StatusParsing.ToLowerIdempotent` | exercises/05_ticket_v2/15_outro/src/status.rs:22 | lower-casing twice is lower-casing once |
| `StatusParsing.ParseOfLowered` | exercises/05_ticket_v2/15_outro/src/status.rs:22-27 | parsing the lower-cased input succeeds exactly when parsing the input does, and with the same status |
| `StatusParsing.CaseInsensitive` | exercises/05_ticket_v2/15_outro/src/status.rs:22-27 | inputs equal up to case parse to the same status, or both fail, each error carrying its own input |
| `StatusParsing.EntryPointsAgree` | exercises/05_ticket_v2/15_outro/src/status.rs:18-44 | the `String` and `&str` entry points give the same result on every input |
| `StatusParsing.TestToDo` | exercises/05_ticket_v2/15_outro/src/status.rs:53-54 | "ToDO" parses to `ToDo` through both entry points |
| `StatusParsing.TestInProgress` | exercises/05_ticket_v2/15_outro/src/status.rs:56-57 | "inproGress" parses to `InProgress` through both entry points |
| `StatusParsing.TestDone` | exercises/05_ticket_v2/15_outro/src/status.rs:59-60 | "Done" parses to `Done` through both entry points |
| `StatusParsing.TestInvalid` | exercises/05_ticket_v2/15_outro/src/status.rs:77-78 | "Invalid" is an error carrying "Invalid" |
| `Wrapping.New` | exercises/04_traits/11_copy/src/lib.rs:11-13 | `new(v)` stores exactly `v` |
| `Wrapping.Add` | exercises/04_traits/11_copy/src/lib.rs:19-23 | the sum is the exact sum when it is below 2^32 and the exact sum minus 2^32 otherwise; the result is always a u32 |
| `Wrapping.AddAsWritten` | exercises/04_traits/11_copy/src/lib.rs:21 | plain `+` in a debug build: it panics exactly when the exact sum exceeds `u32::MAX`, and otherwise gives the exact sum |
| `Wrapping.AsWrittenAgreesWithoutOverflow` | exercises/04_traits/11_copy/src/lib.rs:21 | without overflow, plain `+` and the wrapping addition agree |
| `Wrapping.TestOverflowsAsWritten` | exercises/04_traits/11_copy/src/lib.rs:32-35 | with plain `+`, the test's `42 + 31 + 31` is 104 and adding `u32::MAX` to it panics |
| `Wrapping.TestOps` | exercises/04_traits/11_copy/src/lib.rs:32-35 | with wrapping addition, `42 + 31 + 31 + u32::MAX == 103` |
| `Wrapping.AddCommutes` | exercises/04_traits/11_copy/src/lib.rs:21 | addition is commutative |
| `Wrapping.AddZeroIdentity` | exercises/04_traits/11_copy/src/lib.rs:21 | adding `new(0)` on either side is the identity |
| `Wrapping.AddAssociates` | exercises/04_traits/11_copy/src/lib.rs:21 | addition is associative, so the test's chain of sums does not depend on grouping |
| `Wrapping.AddMaxIsPredecessor` | exercises/04_traits/11_copy/src/lib.rs:35 | adding `u32::MAX` to a non-zero value subtracts one |
| `DropGuard.DropBomb.constructor` | exercises/04_traits/12_drop/src/lib.rs:10-13 | a new bomb is active |
| `DropGuard.DropBomb.Defuse` | exercises/04_traits/12_drop/src/lib.rs:16-18 | defusing clears `isActive` |
| `DropGuard.DropBomb.Drop` | exercises/04_traits/12_drop/src/lib.rs:21-26 | dropping panics if and only if the bomb is still active |
| `DropGuard.DropArmedBomb` | exercises/04_traits/12_drop/src/lib.rs:35-39 | a bomb that is never defused panics when dropped |
| `DropGuard.DropDefusedBomb` | exercises/04_traits/12_drop/src/lib.rs:41-47 | a defused bomb is dropped without a panic |

## Left out

- Threads, `std::thread::spawn`, blocking and real `sync_channel` semantics are not modelled. The actor is sequential. A caller waiting on its reply is modelled as the server serving the whole mailbox, own command included. No other caller enqueues during that wait. Other callers' commands in flight are modelled by `TrySendInsert`/`TrySendGet` without a wait.
- BoundedActor.TicketService.Launch: requires a capacity of at least one. `sync_channel(0)` in the source is a rendezvous channel, and that behaviour is not modelled.
- The reply-channel disconnect paths are not modelled as behaviour: the `panic!` in `insert` and the `unwrap` in `get`. They are unreachable under the class invariant, because a caller holds a sender and the server stops only when none is left. The `Disconnected` error of `try_send` is unreachable for the same reason.
- The server's `let _ =` ignores a failed reply send, which happens when a caller has gone away. In the model a caller never abandons its wait, so that case does not arise.
- The internals of `store.rs` and `data.rs` are not part of this model. The store is a map plus a counter. `TicketId` is an unbounded natural, so a 64-bit id overflow is not modelled.
- `thiserror` derives and `Display` messages are not modelled.
- StatusParsing.ToLower: folds ASCII `A`–`Z` only. It does not model Unicode `to_lowercase`, such as multi-character expansions or non-ASCII letters.
- Rust ownership is not modelled, and neither is the point where `drop` runs. `Drop` is an explicit call. `defuse(mut self)` drops the bomb at its end, which is written as `Defuse` followed by `Drop`. Using a bomb after it is dropped is not ruled out.
- Debug-build overflow panics appear only in `Wrapping.AddAsWritten`, for the finding below. The rest of the model uses the wrapping `Wrapping.Add`.

## Findings

| source | as written | input that shows it | evidently intended | confidence | as-written member | corrected member |
|---|---|---|---|---|---|---|
| exercises/04_traits/11_copy/src/lib.rs:21 | `self.value + other.value` uses plain `+`, which panics on u32 overflow in a debug build, the profile used to run the tests | the test at line 35: `42 + 31 + 31` is 104, and `104 + u32::MAX` overflows | wrapping addition modulo 2^32, as the test's expected value 103 shows | high; not executed | `Wrapping.AddAsWritten` | `Wrapping.Add` |

`Wrapping.TestOverflowsAsWritten` exhibits the panicking addition on the test's input. `Wrapping.TestOps` proves that the corrected addition gives 103.
