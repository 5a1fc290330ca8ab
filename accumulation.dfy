/**
 * The worker thread of src/main.rs: it takes decoded messages from the
 * channel in order, appends their rows to the owned `store`, and flushes the
 * first `SIZE` rows to the database once per message when the store holds at
 * least `SIZE` rows.
 */
module Accumulation {
  import opened ChannelRows

  /** `SIZE`: the number of rows in one write, and the threshold that triggers it. */
  const SIZE: nat := 1000

  /** The concatenation of a sequence of batches, in order. */
  function Flatten<T>(batches: seq<seq<T>>): seq<T> {
    if batches == [] then []
    else Flatten(batches[..|batches| - 1]) + batches[|batches| - 1]
  }

  lemma FlattenSnoc<T>(batches: seq<seq<T>>, batch: seq<T>)
    ensures Flatten(batches + [batch]) == Flatten(batches) + batch
  {
    assert (batches + [batch])[..|batches|] == batches;
  }

  /** The worker's buffer together with the batches written to the table so far. */
  datatype Buffered = Buffered(store: seq<ChannelRow>, written: seq<seq<ChannelRow>>)

  /**
   * One turn of the worker loop: append the message's rows, test the length
   * once, and on reaching `SIZE` write and drain exactly the first `SIZE` rows.
   */
  function Accumulate(s: Buffered, rows: seq<ChannelRow>): (r: Buffered)
    ensures |r.written| == |s.written| + (if |s.store| + |rows| >= SIZE then 1 else 0)
    ensures r.written[..|s.written|] == s.written
    ensures |r.written| > |s.written| ==> |r.written[|s.written|]| == SIZE
    ensures Flatten(r.written) + r.store == Flatten(s.written) + s.store + rows
    ensures |s.store| + |rows| >= 2 * SIZE ==> |r.store| >= SIZE
    ensures |s.store| < SIZE && |rows| <= SIZE ==> |r.store| < SIZE
  {
    var all := s.store + rows;
    if |all| >= SIZE then
      var written := s.written + [all[..SIZE]];
      assert written[..|s.written|] == s.written;
      assert all[..SIZE] + all[SIZE..] == all;
      Buffered(all[SIZE..], written)
    else
      Buffered(all, s.written)
  }

  /** The state reached from an empty store after the given messages' rows, in channel order. */
  function Feed(messages: seq<seq<ChannelRow>>): Buffered {
    if messages == [] then Buffered([], [])
    else Accumulate(Feed(messages[..|messages| - 1]), messages[|messages| - 1])
  }

  /**
   * Conservation: everything written, followed by what is still buffered, is
   * every row received, in order; and every write holds exactly `SIZE` rows.
   */
  lemma {:induction false} FeedConserves(messages: seq<seq<ChannelRow>>)
    ensures Flatten(Feed(messages).written) + Feed(messages).store == Flatten(messages)
    ensures forall k :: 0 <= k < |Feed(messages).written| ==> |Feed(messages).written[k]| == SIZE
  {
    if messages != [] {
      var init := messages[..|messages| - 1];
      FeedConserves(init);
      var s := Feed(init);
      var r := Feed(messages);
      forall k | 0 <= k < |r.written|
        ensures |r.written[k]| == SIZE
      {
        if k < |s.written| {
          assert r.written[k] == r.written[..|s.written|][k];
        }
      }
    }
  }

  /** While no message carries more than `SIZE` rows, the store stays below `SIZE` rows. */
  lemma {:induction false} FeedBounded(messages: seq<seq<ChannelRow>>)
    requires forall k :: 0 <= k < |messages| ==> |messages[k]| <= SIZE
    ensures |Feed(messages).store| < SIZE
  {
    if messages != [] {
      FeedBounded(messages[..|messages| - 1]);
    }
  }

  /** Each message triggers at most one write, so there are never more writes than messages. */
  lemma {:induction false} FeedWritesAtMostOncePerMessage(messages: seq<seq<ChannelRow>>)
    ensures |Feed(messages).written| <= |messages|
  {
    if messages != [] {
      FeedWritesAtMostOncePerMessage(messages[..|messages| - 1]);
    }
  }

  /** Below `SIZE` single-row messages nothing is written and the store holds them all. */
  lemma {:induction false} SingleRowsBelowThreshold(messages: seq<seq<ChannelRow>>, j: nat)
    requires forall k :: 0 <= k < |messages| ==> |messages[k]| == 1
    requires j < SIZE && j <= |messages|
    ensures Feed(messages[..j]) == Buffered(Flatten(messages[..j]), [])
    ensures |Flatten(messages[..j])| == j
  {
    if j > 0 {
      SingleRowsBelowThreshold(messages, j - 1);
      assert messages[..j][..j - 1] == messages[..j - 1];
    }
  }

  /**
   * `SIZE` single-row messages: the last of them triggers one write of
   * exactly those rows in arrival order, and the store is empty afterwards.
   */
  lemma ThresholdOfSingleRows(messages: seq<seq<ChannelRow>>)
    requires |messages| == SIZE
    requires forall k :: 0 <= k < |messages| ==> |messages[k]| == 1
    ensures Feed(messages) == Buffered([], [Flatten(messages)])
  {
    SingleRowsBelowThreshold(messages, SIZE - 1);
    var init := messages[..SIZE - 1];
    assert messages[..|messages| - 1] == init;
    var all := Flatten(init) + messages[SIZE - 1];
    assert Flatten(messages) == all;
    assert all[..SIZE] == all && all[SIZE..] == [];
  }

  /**
   * `write_rows`'s selection: the rows `store[0]`, ..., `store[SIZE - 1]`
   * read in index order. Indexing needs `SIZE` rows; its only caller checks that.
   */
  method SelectBatch(store: seq<ChannelRow>) returns (batch: seq<ChannelRow>)
    requires |store| >= SIZE
    ensures batch == store[..SIZE]
  {
    batch := [];
    for i := 0 to SIZE
      invariant batch == store[..i]
    {
      batch := batch + [store[i]];
    }
  }

  /**
   * What the worker takes from its environment on one turn: the received
   * message, the clock reading, and whether the database calls would succeed.
   */
  datatype Delivery = Delivery(msg: SubMessage, time: Timestamp, commitOk: bool)

  /**
   * The worker thread's state: its `store`, the batches committed to the table,
   * the row vectors of the messages it took from the channel, and whether it
   * has ended with a panic.
   */
  datatype Worker = Worker(
    store: seq<ChannelRow>,
    written: seq<seq<ChannelRow>>,
    received: seq<seq<ChannelRow>>,
    halted: bool)

  /** The store and the table are what the flush policy makes of the received rows. */
  ghost predicate Valid(w: Worker) {
    Feed(w.received) == Buffered(w.store, w.written)
  }

  /** The written rows followed by the buffered ones are exactly the received ones. */
  ghost predicate Conserved(w: Worker) {
    Flatten(w.written) + w.store == Flatten(w.received)
  }

  /** The outcome of one turn: the next state, and whether a write was made. */
  datatype Turn = Turn(next: Worker, wrote: bool)

  /**
   * One turn of the worker `loop`: expand the message (a panic ends the
   * thread), append its rows, and if the store then holds `SIZE` rows or more,
   * write the first `SIZE` of them and drain them; a failed write ends the
   * thread with the store as it was after the append.
   */
  function StepSpec(w: Worker, d: Delivery): Turn {
    match Expand(d.msg, d.time)
    case IndexPanic(_) => Turn(w.(halted := true), false)
    case Expanded(rows) =>
      var received := w.received + [rows];
      var crossed := |w.store| + |rows| >= SIZE;
      if crossed && !d.commitOk then
        Turn(Worker(w.store + rows, w.written, received, true), false)
      else
        var b := Accumulate(Buffered(w.store, w.written), rows);
        Turn(Worker(b.store, b.written, received, false), crossed)
  }

  /** The worker `loop` over a sequence of deliveries, until they run out or the thread ends. */
  function RunSpec(w: Worker, ds: seq<Delivery>): Worker
    decreases |ds|
  {
    if ds == [] || w.halted then w
    else RunSpec(StepSpec(w, ds[0]).next, ds[1..])
  }

  /** The row vectors of deliveries whose messages all expand, in order. */
  function DeliveredRows(ds: seq<Delivery>): seq<seq<ChannelRow>>
    requires forall k :: 0 <= k < |ds| ==> WellFormed(ds[k].msg)
    decreases |ds|
  {
    if ds == [] then []
    else
      assert WellFormed(ds[0].msg);
      [RowsOf(ds[0].msg.ids, ds[0].msg.subs, ds[0].time)] + DeliveredRows(ds[1..])
  }

  /**
   * A write happens exactly when the message expands, the store reaches
   * `SIZE` rows after the append, and the database calls succeed; the thread
   * ends exactly on a panic of the expansion or of the write.
   */
  lemma StepOutcome(w: Worker, d: Delivery)
    requires !w.halted
    ensures StepSpec(w, d).wrote <==>
      WellFormed(d.msg) && |w.store| + |d.msg.subs| >= SIZE && d.commitOk
    ensures StepSpec(w, d).next.halted <==>
      !WellFormed(d.msg) || (|w.store| + |d.msg.subs| >= SIZE && !d.commitOk)
  {
    if WellFormed(d.msg) {
      RowsOfAt(d.msg.ids, d.msg.subs, d.time);
    }
  }

  /** A panic or a failed write loses no committed batch and drops no rows already received. */
  lemma StepOnHalt(w: Worker, d: Delivery)
    requires !w.halted && StepSpec(w, d).next.halted
    ensures StepSpec(w, d).next.written == w.written
    ensures StepSpec(w, d).next.store == w.store + (if WellFormed(d.msg) then RowsOf(d.msg.ids, d.msg.subs, d.time) else [])
  {
  }

  /** Every turn keeps what was written before: committed batches are never withdrawn. */
  lemma StepKeepsWritten(w: Worker, d: Delivery)
    ensures StepSpec(w, d).next.written[..|w.written|] == w.written
  {
  }

  /** Every turn keeps the conservation of rows. */
  lemma StepConserves(w: Worker, d: Delivery)
    requires Conserved(w)
    ensures Conserved(StepSpec(w, d).next)
  {
    match Expand(d.msg, d.time)
    case IndexPanic(_) =>
    case Expanded(rows) =>
      FlattenSnoc(w.received, rows);
  }

  /** A turn that does not end the thread keeps the store and table in step with the received rows. */
  lemma StepValid(w: Worker, d: Delivery)
    requires Valid(w) && !StepSpec(w, d).next.halted
    ensures Valid(StepSpec(w, d).next)
  {
    match Expand(d.msg, d.time)
    case IndexPanic(_) =>
    case Expanded(rows) =>
      var received := w.received + [rows];
      assert received[..|received| - 1] == w.received;
  }

  /** Over any sequence of deliveries, the rows written followed by the rows buffered are the rows received. */
  lemma {:induction false} RunConserves(w: Worker, ds: seq<Delivery>)
    requires Conserved(w)
    ensures Conserved(RunSpec(w, ds))
    decreases |ds|
  {
    if ds != [] && !w.halted {
      StepConserves(w, ds[0]);
      RunConserves(StepSpec(w, ds[0]).next, ds[1..]);
    }
  }

  /** Over any sequence of deliveries, the batches already committed stay committed, in order. */
  lemma {:induction false} RunKeepsWritten(w: Worker, ds: seq<Delivery>)
    ensures |RunSpec(w, ds).written| >= |w.written|
    ensures RunSpec(w, ds).written[..|w.written|] == w.written
    decreases |ds|
  {
    if ds != [] && !w.halted {
      var next := StepSpec(w, ds[0]).next;
      StepKeepsWritten(w, ds[0]);
      RunKeepsWritten(next, ds[1..]);
      assert RunSpec(w, ds).written[..|next.written|][..|w.written|] == RunSpec(w, ds).written[..|w.written|];
    }
  }

  /**
   * A run in which the thread survives took every delivery, each message
   * expanded, and the received rows are those of the deliveries in order.
   */
  lemma {:induction false} RunReceives(w: Worker, ds: seq<Delivery>)
    requires !w.halted && Valid(w) && !RunSpec(w, ds).halted
    ensures forall k :: 0 <= k < |ds| ==> WellFormed(ds[k].msg)
    ensures RunSpec(w, ds).received == w.received + DeliveredRows(ds)
    ensures Valid(RunSpec(w, ds))
    decreases |ds|
  {
    if ds != [] {
      var next := StepSpec(w, ds[0]).next;
      assert !next.halted;
      StepValid(w, ds[0]);
      RunReceives(next, ds[1..]);
      assert WellFormed(ds[0].msg);
      forall k | 0 <= k < |ds|
        ensures WellFormed(ds[k].msg)
      {
        if k > 0 {
          assert ds[k] == ds[1..][k - 1];
        }
      }
    }
  }

  /**
   * A run in which the thread ends reached, with the thread still alive, a
   * delivery whose message has too few ids, or whose turn attempted a write
   * (the store reached `SIZE` rows after the append) that failed.
   */
  lemma {:induction false} RunHaltCause(w: Worker, ds: seq<Delivery>)
    requires !w.halted && RunSpec(w, ds).halted
    ensures exists k :: (
      0 <= k < |ds| && !RunSpec(w, ds[..k]).halted &&
      (!WellFormed(ds[k].msg) ||
       (|RunSpec(w, ds[..k]).store| + |ds[k].msg.subs| >= SIZE && !ds[k].commitOk)))
    decreases |ds|
  {
    var next := StepSpec(w, ds[0]).next;
    StepOutcome(w, ds[0]);
    if next.halted {
      assert ds[..0] == [];
      assert RunSpec(w, ds[..0]) == w;
    } else {
      RunHaltCause(next, ds[1..]);
      var k :| 0 <= k < |ds[1..]| && !RunSpec(next, ds[1..][..k]).halted &&
        (!WellFormed(ds[1..][k].msg) ||
         (|RunSpec(next, ds[1..][..k]).store| + |ds[1..][k].msg.subs| >= SIZE && !ds[1..][k].commitOk));
      assert ds[1..][k] == ds[k + 1];
      assert ds[..k + 1][0] == ds[0] && ds[..k + 1][1..] == ds[1..][..k];
      assert RunSpec(w, ds[..k + 1]) == RunSpec(next, ds[1..][..k]);
    }
  }

  /** The state of the worker thread spawned in `main`. */
  class Accumulator {
    /** The owned `store` vector. */
    var store: seq<ChannelRow>
    /** The thread has ended with a panic (an index out of range, or a failed write). */
    var halted: bool
    /** The batches committed to the table, in commit order. */
    ghost var written: seq<seq<ChannelRow>>
    /** The row vectors of the messages taken from the channel, in channel order. */
    ghost var received: seq<seq<ChannelRow>>

    ghost function State(): Worker
      reads this
    {
      Worker(store, written, received, halted)
    }

    constructor ()
      ensures State() == Worker([], [], [], false)
      ensures Valid(State()) && Conserved(State())
    {
      store := [];
      halted := false;
      written := [];
      received := [];
    }

    /**
     * `write_rows`: selects the first `SIZE` rows and inserts them in one
     * transaction; `commitOk` stands for the outcome of connect, transaction,
     * insert and commit. A failure writes nothing.
     */
    method WriteRows(commitOk: bool) returns (committed: bool)
      requires |store| >= SIZE
      modifies this`written
      ensures committed == commitOk
      ensures written == if committed then old(written) + [store[..SIZE]] else old(written)
    {
      var batch := SelectBatch(store);
      committed := commitOk;
      if committed {
        written := written + [batch];
      }
    }

    /** One turn of the worker `loop`, on the message received from the channel. */
    method Step(msg: SubMessage, time: Timestamp, commitOk: bool) returns (wrote: bool)
      requires !halted
      modifies this
      ensures Turn(State(), wrote) == StepSpec(old(State()), Delivery(msg, time, commitOk))
    {
      var expansion := MsgToVec(msg, time);
      if expansion.IndexPanic? {
        halted := true;
        return false;
      }
      var other := expansion.rows;
      store := store + other;
      received := received + [other];
      wrote := false;
      if |store| >= SIZE {
        var committed := WriteRows(commitOk);
        if !committed {
          halted := true;
          return;
        }
        store := store[SIZE..];
        wrote := true;
      }
    }

    /**
     * The worker `loop`: receives the deliveries one by one until they run
     * out or the thread panics; `taken` counts the messages received.
     */
    method Run(deliveries: seq<Delivery>) returns (taken: nat)
      requires !halted
      modifies this
      ensures taken <= |deliveries|
      ensures !halted ==> taken == |deliveries|
      ensures State() == RunSpec(old(State()), deliveries)
    {
      taken := 0;
      while taken < |deliveries| && !halted
        invariant taken <= |deliveries|
        invariant RunSpec(State(), deliveries[taken..]) == RunSpec(old(State()), deliveries)
        decreases |deliveries| - taken
      {
        var d := deliveries[taken];
        assert deliveries[taken..][1..] == deliveries[taken + 1..];
        var wrote := Step(d.msg, d.time, d.commitOk);
        taken := taken + 1;
      }
    }
  }

  /** A message with ids [1, 2] and subs [10, 20] adds two rows sharing one timestamp, and writes nothing. */
  method TwoRowScenario(time: Timestamp) {
    var acc := new Accumulator();
    var wrote := acc.Step(SubMessage([1, 2], [10, 20]), time, true);
    assert !wrote;
    assert acc.store == [ChannelRow(time, 1, 10), ChannelRow(time, 2, 20)];
  }
}
