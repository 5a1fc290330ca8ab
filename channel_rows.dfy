/**
 * The rows of the `channels` table and their construction from one decoded
 * message (`ChannelRow` and `msg_to_vec` in src/main.rs).
 */
module ChannelRows {

  /** Rust's `i32`: channel ids and subscriber counts on the wire and in the table. */
  newtype i32 = x: int | -0x8000_0000 <= x < 0x8000_0000

  /**
   * A reading of the local wall clock. The model takes it as a parameter where
   * the source calls `Local::now()`.
   */
  type Timestamp = int

  /** One persisted observation: ingestion time, channel id, subscriber count. */
  datatype ChannelRow = ChannelRow(time: Timestamp, id: i32, sub: i32)

  /** A decoded message: two lists that are meant to be paired position by position. */
  datatype SubMessage = SubMessage(ids: seq<i32>, subs: seq<i32>)

  /**
   * `msg_to_vec` loops over the positions of `subs` and indexes `ids` at each
   * of them, so it completes exactly when there are at least as many ids as subs.
   */
  predicate WellFormed(msg: SubMessage) {
    |msg.subs| <= |msg.ids|
  }

  /** The rows built from the paired lists, in list order, all stamped with `time`. */
  function RowsOf(ids: seq<i32>, subs: seq<i32>, time: Timestamp): seq<ChannelRow>
    requires |subs| <= |ids|
    decreases |subs|
  {
    if subs == [] then []
    else [ChannelRow(time, ids[0], subs[0])] + RowsOf(ids[1..], subs[1..], time)
  }

  /** The outcome of `msg_to_vec`: its rows, or the panic of the out-of-range index. */
  datatype Expansion = Expanded(rows: seq<ChannelRow>) | IndexPanic(index: nat)

  /** What `msg_to_vec` does with a message, given the clock reading it takes. */
  function Expand(msg: SubMessage, time: Timestamp): Expansion {
    if WellFormed(msg) then Expanded(RowsOf(msg.ids, msg.subs, time))
    else IndexPanic(|msg.ids|)
  }

  function Ids(rows: seq<ChannelRow>): seq<i32> {
    seq(|rows|, i requires 0 <= i < |rows| => rows[i].id)
  }

  function Subs(rows: seq<ChannelRow>): seq<i32> {
    seq(|rows|, i requires 0 <= i < |rows| => rows[i].sub)
  }

  /** Every row carries the same timestamp `time`. */
  predicate StampedAt(rows: seq<ChannelRow>, time: Timestamp) {
    forall i :: 0 <= i < |rows| ==> rows[i].time == time
  }

  /** There is one row per sub count, and row `i` pairs `ids[i]` with `subs[i]` at `time`. */
  lemma {:induction false} RowsOfAt(ids: seq<i32>, subs: seq<i32>, time: Timestamp)
    requires |subs| <= |ids|
    ensures |RowsOf(ids, subs, time)| == |subs|
    ensures forall i :: 0 <= i < |subs| ==>
      RowsOf(ids, subs, time)[i] == ChannelRow(time, ids[i], subs[i])
  {
    if subs != [] {
      RowsOfAt(ids[1..], subs[1..], time);
    }
  }

  /** All rows of one message share the single timestamp read before the loop. */
  lemma RowsOfShareTimestamp(ids: seq<i32>, subs: seq<i32>, time: Timestamp)
    requires |subs| <= |ids|
    ensures StampedAt(RowsOf(ids, subs, time), time)
  {
    RowsOfAt(ids, subs, time);
  }

  /** Ids beyond the length of `subs` are never read. */
  lemma ExtraIdsIgnored(ids: seq<i32>, subs: seq<i32>, time: Timestamp)
    requires |subs| <= |ids|
    ensures RowsOf(ids, subs, time) == RowsOf(ids[..|subs|], subs, time)
  {
    RowsOfAt(ids, subs, time);
    RowsOfAt(ids[..|subs|], subs, time);
  }

  /** Projecting the rows back gives the sub counts and the ids that were paired with them. */
  lemma ProjectRowsOf(ids: seq<i32>, subs: seq<i32>, time: Timestamp)
    requires |subs| <= |ids|
    ensures Ids(RowsOf(ids, subs, time)) == ids[..|subs|]
    ensures Subs(RowsOf(ids, subs, time)) == subs
    ensures StampedAt(RowsOf(ids, subs, time), time)
  {
    RowsOfAt(ids, subs, time);
  }

  /** Conversely, rows that share one timestamp are rebuilt exactly from their projections. */
  lemma RowsOfProjections(rows: seq<ChannelRow>, time: Timestamp)
    requires StampedAt(rows, time)
    ensures RowsOf(Ids(rows), Subs(rows), time) == rows
  {
    RowsOfAt(Ids(rows), Subs(rows), time);
  }

  /**
   * `msg_to_vec`: builds the row vector with a loop and `push`, indexing
   * `ids[i]` for every position `i` of `subs`.
   */
  method MsgToVec(msg: SubMessage, time: Timestamp) returns (r: Expansion)
    ensures r == Expand(msg, time)
  {
    var store: seq<ChannelRow> := [];
    for i := 0 to |msg.subs|
      invariant i <= |msg.ids|
      invariant |store| == i
      invariant forall k :: 0 <= k < i ==> store[k] == ChannelRow(time, msg.ids[k], msg.subs[k])
    {
      if i >= |msg.ids| {
        return IndexPanic(i);
      }
      store := store + [ChannelRow(time, msg.ids[i], msg.subs[i])];
    }
    RowsOfAt(msg.ids, msg.subs, time);
    r := Expanded(store);
  }
}
