# tcp-writer: a Dafny model of the row accumulator

tcp-writer is a small Rust service. It accepts TCP connections, decodes one
protobuf `SubMessage` per connection, and hands each message to a worker
thread. A `SubMessage` is two parallel lists: channel ids and subscriber counts.
The worker turns each message into `ChannelRow`s that share one wall-clock
timestamp. It appends them to its owned `store` vector. When the store holds at
least `SIZE` (1000) rows, it writes the first `SIZE` rows to PostgreSQL in one
transaction and drains them from the store.

This project models that pipeline in four modules:

- `ChannelRows` (`channel_rows.dfy`): the row and message types, and
  `msg_to_vec` as the method `MsgToVec`. The method loops, pushes and indexes
  like the source. It is specified by the function `Expand`, which yields the
  rows or the index panic.
- `Accumulation` (`accumulation.dfy`): the flush policy as pure functions.
  `Accumulate` is one turn; `Feed` folds it over all received messages.
  `StepSpec` and `RunSpec` are the worker's turn and loop, including the panics
  that end the thread. The class `Accumulator` holds the mutable `store`, a
  ghost log of written batches and a ghost log of received rows. Its `Step` and
  `Run` methods are proved equal to `StepSpec` and `RunSpec`. `WriteRows` and
  `SelectBatch` model `write_rows`: it reads `store[0..SIZE]` in index order,
  and a successful commit records the batch in the log.
- `Ingestion` (`ingestion.dfy`): the accept/read/decode loop of `main`.
  `ReadInto` copies a payload into the reused 2000-byte buffer. `Listen` decodes
  only the bytes just read and collects the messages sent to the worker. It is
  specified by `Serve`.
- `Wrappers` (`wrappers.dfy`): an `Option` type.

Parameters stand in for the world outside the program:

- The clock reading `Local::now()` is the `time` parameter.
- The protobuf decoder is the function parameter `decode`.
- The outcome of the database calls is the `commitOk` flag of each `Delivery`.
- The channel is the ordered sequence of deliveries given to `Run`.
- The connections the listener yields are the sequence given to `Listen`.

Two behaviours of the code are kept as written:

- The wire schema pairs the two lists position by position. The code indexes
  `ids[i]` for every position of `subs`. Extra ids are therefore ignored, and
  fewer ids than subs panics the worker thread. The model has both behaviours.
- The flush check runs once per message, as in the source. A message that
  brings the store to `2*SIZE` rows or more leaves at least `SIZE` rows buffered
  (`Accumulate`'s contract).

## Model

| member | source | states |
|---|---|---|
| ChannelRows.RowsOfAt | src/main.rs:73-84 | there is exactly one row per entry of `subs`; row `i` carries `ids[i]`, `subs[i]` and the message's timestamp, in list order |
| ChannelRows.RowsOfShareTimestamp | src/main.rs:72-81 | every row built from one message carries the single timestamp read before the loop |
| ChannelRows.ExtraIdsIgnored | src/main.rs:73-75 | ids past the length of `subs` are never read: the rows are the same with them cut off |
| ChannelRows.ProjectRowsOf | src/main.rs:73-84 | projecting the rows back gives `subs` and as many leading ids as there are sub counts |
| ChannelRows.RowsOfProjections | src/main.rs:77-84 | conversely, rows sharing one timestamp are rebuilt exactly from their id and sub projections |
| ChannelRows.MsgToVec | src/main.rs:69-87 | the loop returns the expanded rows when `ids` has at least as many entries as `subs`, and otherwise panics at the index one past the last id |
| Accumulation.Accumulate | src/main.rs:104-115 | a write happens iff the store reaches `SIZE` rows after the append, at most once per message; the batch has exactly `SIZE` rows; earlier batches are kept; written rows followed by buffered rows equal the old ones plus the new, so the batch is the first `SIZE` rows after the append and the store keeps the rest in order; `>= 2*SIZE` rows leave `>= SIZE` buffered; messages of at most `SIZE` rows keep the store below `SIZE` |
| Accumulation.FeedConserves | src/main.rs:95-116 | over any sequence of messages, all written batches followed by the store equal all received rows in order, and every batch has `SIZE` rows |
| Accumulation.FeedBounded | src/main.rs:104-115 | if no message has more than `SIZE` rows, the store always holds fewer than `SIZE` rows |
| Accumulation.FeedWritesAtMostOncePerMessage | src/main.rs:108-115 | there are never more writes than messages received |
| Accumulation.SingleRowsBelowThreshold | src/main.rs:104-113 | fewer than `SIZE` single-row messages write nothing, and the store holds all their rows in order |
| Accumulation.ThresholdOfSingleRows | src/main.rs:104-113 | after `SIZE` single-row messages, exactly one batch of exactly those rows in arrival order is written, and the store is empty |
| Accumulation.SelectBatch | src/main.rs:55-56 | `write_rows` reads exactly `store[0..SIZE]` in index order; its caller's guard supplies the `SIZE` rows indexing needs |
| Accumulation.StepOutcome | src/main.rs:100-115 | a turn writes iff the message expands, the store reaches `SIZE` rows after the append, and the write succeeds; the thread ends iff the expansion panics or the write fails |
| Accumulation.StepOnHalt | src/main.rs:109-112 | a turn that ends the thread commits nothing new; on an index panic the store is as before the turn, on a failed write it is the store after the append |
| Accumulation.StepKeepsWritten | src/main.rs:112-113 | a turn never withdraws a committed batch |
| Accumulation.StepConserves | src/main.rs:104-113 | a turn preserves the rule: written rows followed by buffered rows equal received rows |
| Accumulation.StepValid | src/main.rs:104-115 | a turn that does not end the thread leaves the store and the table in the state the flush policy gives for all received messages |
| Accumulation.RunConserves | src/main.rs:97-116 | conservation of rows holds after any sequence of turns, including one ended by a panic |
| Accumulation.RunKeepsWritten | src/main.rs:97-116 | committed batches stay committed, in order, across any sequence of turns |
| Accumulation.RunReceives | src/main.rs:97-116 | a run the thread survives expanded every message; the received rows are those of the deliveries in channel order; the flush-policy state is kept |
| Accumulation.RunHaltCause | src/main.rs:97-116 | a run that ends the thread reached, with the thread alive, a message with too few ids or a turn whose store reached `SIZE` rows after the append and whose write failed |
| Accumulation.Accumulator.constructor | src/main.rs:95 | the worker starts with an empty store and nothing written |
| Accumulation.Accumulator.WriteRows | src/main.rs:41-67 | on success, exactly `store[0..SIZE]` is appended to the table log as one batch; on failure nothing is written |
| Accumulation.Accumulator.Step | src/main.rs:98-115 | one loop turn changes the store, the logs and the halt flag exactly as `StepSpec` does |
| Accumulation.Accumulator.Run | src/main.rs:94-117 | the worker loop over a sequence of deliveries ends in the state `RunSpec` gives; if the thread survives, every delivery was received |
| Ingestion.ReadBytes | src/main.rs:127-135 | a read returns the payload when it fits in `BUFSIZE` bytes, and otherwise only its first `BUFSIZE` bytes |
| Ingestion.ReadInto | src/main.rs:127-135 | the first `n` bytes of the reused buffer are exactly the bytes read; the bytes after them are untouched |
| Ingestion.Listen | src/main.rs:119-147 | the loop sends exactly the messages `Serve` gives, in order, and exits with status 3 exactly where `Serve` does |
| Ingestion.ServeExit | src/main.rs:120-124 | the process exits, with status 3, iff accepting some connection fails |
| Ingestion.ServeSendsAtMostOnePerConnection | src/main.rs:120-147 | no more messages are sent than connections accepted |
| Ingestion.ServeAppend | src/main.rs:120-147 | messages of earlier connections are sent before those of later ones |
| Ingestion.FailedConnectionIgnored | src/main.rs:127-141 | a connection whose read fails, or whose bytes do not decode, sends nothing and changes nothing for the other connections |

## Left out

- The TCP listener's bind and its panic (src/main.rs:31-39): network plumbing.
  An accept failure is modelled as the exit with status 3.
- Ingestion.ReadBytes, Ingestion.ReadInto: one `read` is taken to return all of the payload that fits
  in the buffer. A short read that returns fewer bytes than were sent is not
  modelled.
- Protobuf decoding (`deserialize_from_slice`, the `message` module): external
  code. It is the `decode` parameter.
- The PostgreSQL connect, transaction, insert and commit calls: driver code.
  Their combined outcome is the `commitOk` flag. A failure writes nothing. This
  is the transactional reading of lines 52-66. The statements run through `conn`
  rather than `trans` at line 61, and whether that matters is driver semantics
  the model cannot check. The malformed SQL text at line 29 (`VALUE`) is not
  modelled either.
- The `mpsc` channel and `spawn`: concurrency. The worker sees the channel as
  the ordered sequence of deliveries. Once the worker thread has panicked, the
  next `send` in `main` fails and panics (line 146). That cross-thread effect is
  not modelled: `Listen` reports every message it would send.
- `Local::now()`: it is the `time` parameter.
- All `println!`/`eprintln!` logging, and `.expect` panics as a way of ending
  the process. A panic in the worker is modelled as its `halted` flag.
- The endless `loop` and `for stream in listener.incoming()`: they are modelled
  over finite runs of deliveries and connections.
- Accumulation.SelectBatch and Accumulation.Accumulator.WriteRows: both require
  `SIZE` rows in the store. The source would panic on a shorter store, but its
  only caller checks the length first (line 109).
