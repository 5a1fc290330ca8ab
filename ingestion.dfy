/**
 * The accept-read-decode loop of `main` in src/main.rs: connections are
 * taken one at a time, one `read` fills a reused fixed-size buffer, the bytes
 * read are decoded, and every decoded message is sent to the worker in order.
 * The decoder is a parameter: the protobuf code is not part of this model.
 */
module Ingestion {
  import opened Wrappers
  import opened ChannelRows

  newtype byte = x: int | 0 <= x < 256

  /** `BUFSIZE`: the capacity of the read buffer. */
  const BUFSIZE: nat := 2000

  /** The exit status of the process when accepting a connection fails. */
  const ACCEPT_FAILURE_EXIT: int := 3

  /** What the listener yields for one incoming connection. */
  datatype Incoming =
    | AcceptFailed             // `incoming()` yielded an error
    | ReadFailed               // the connection was accepted but `read` failed
    | Readable(payload: seq<byte>)  // the connection delivers these bytes

  /** The bytes one `read` into the buffer returns: a payload longer than the buffer is cut short. */
  function ReadBytes(payload: seq<byte>): (r: seq<byte>)
    ensures |r| <= BUFSIZE && |r| <= |payload| && r == payload[..|r|]
    ensures |payload| <= BUFSIZE ==> r == payload
    ensures |payload| > BUFSIZE ==> |r| == BUFSIZE
  {
    if |payload| <= BUFSIZE then payload else payload[..BUFSIZE]
  }

  /** The messages sent to the worker, in order, and the exit status if the process exits. */
  datatype Served = Served(sent: seq<SubMessage>, exit: Option<int>)

  /**
   * The loop over incoming connections: an accept failure exits with status 3;
   * a failed read or a failed decode skips the connection; otherwise the
   * decoded message is sent.
   */
  function Serve(conns: seq<Incoming>, decode: seq<byte> -> Option<SubMessage>): Served
    decreases |conns|
  {
    if conns == [] then Served([], None)
    else
      var rest := Serve(conns[1..], decode);
      match conns[0]
      case AcceptFailed => Served([], Some(ACCEPT_FAILURE_EXIT))
      case ReadFailed => rest
      case Readable(payload) =>
        match decode(ReadBytes(payload))
        case None => rest
        case Some(msg) => Served([msg] + rest.sent, rest.exit)
  }

  /** The process exits, with status 3, exactly when some accept fails. */
  lemma {:induction false} ServeExit(conns: seq<Incoming>, decode: seq<byte> -> Option<SubMessage>)
    ensures Serve(conns, decode).exit == if AcceptFailed in conns then Some(ACCEPT_FAILURE_EXIT) else None
    decreases |conns|
  {
    if conns != [] {
      ServeExit(conns[1..], decode);
      assert AcceptFailed in conns <==> conns[0] == AcceptFailed || AcceptFailed in conns[1..];
    }
  }

  /** At most one message per connection is sent. */
  lemma {:induction false} ServeSendsAtMostOnePerConnection(conns: seq<Incoming>, decode: seq<byte> -> Option<SubMessage>)
    ensures |Serve(conns, decode).sent| <= |conns|
    decreases |conns|
  {
    if conns != [] {
      ServeSendsAtMostOnePerConnection(conns[1..], decode);
    }
  }

  /**
   * Order: connections served before any accept failure send their messages
   * ahead of those of later connections.
   */
  lemma {:induction false} ServeAppend(a: seq<Incoming>, b: seq<Incoming>, decode: seq<byte> -> Option<SubMessage>)
    requires AcceptFailed !in a
    ensures Serve(a + b, decode) == Served(Serve(a, decode).sent + Serve(b, decode).sent, Serve(b, decode).exit)
    decreases |a|
  {
    if a != [] {
      assert (a + b)[1..] == a[1..] + b;
      ServeAppend(a[1..], b, decode);
    } else {
      assert a + b == b;
    }
  }

  /**
   * A connection whose read fails, or whose bytes do not decode, sends
   * nothing and does not disturb the connections around it.
   */
  lemma {:induction false} FailedConnectionIgnored(a: seq<Incoming>, c: Incoming, b: seq<Incoming>, decode: seq<byte> -> Option<SubMessage>)
    requires c.ReadFailed? || (c.Readable? && decode(ReadBytes(c.payload)).None?)
    ensures Serve(a + [c] + b, decode) == Serve(a + b, decode)
    decreases |a|
  {
    if a != [] {
      assert (a + [c] + b)[1..] == a[1..] + [c] + b;
      assert (a + b)[1..] == a[1..] + b;
      FailedConnectionIgnored(a[1..], c, b, decode);
    } else {
      assert (a + [c] + b)[1..] == b;
      assert a + b == b;
    }
  }

  /**
   * `stream.read(&mut buf)`: copies at most `buf.Length` bytes of the payload
   * into the front of the buffer and reports how many; the rest of the buffer
   * keeps whatever an earlier connection left there.
   */
  method ReadInto(buf: array<byte>, payload: seq<byte>) returns (n: nat)
    requires buf.Length == BUFSIZE
    modifies buf
    ensures n == |ReadBytes(payload)| && buf[..n] == ReadBytes(payload)
    ensures buf[n..] == old(buf[n..])
  {
    n := if |payload| <= buf.Length then |payload| else buf.Length;
    for i := 0 to n
      invariant buf[..i] == payload[..i]
      invariant buf[i..] == old(buf[i..])
    {
      buf[i] := payload[i];
      assert buf[..i + 1] == buf[..i] + [payload[i]];
    }
  }

  /**
   * The `for stream in listener.incoming()` loop over a finite run of
   * connections; the one buffer is reused, and only the `n` bytes just read
   * are decoded. `sent` are the messages handed to the channel, in order.
   */
  method Listen(conns: seq<Incoming>, decode: seq<byte> -> Option<SubMessage>)
    returns (sent: seq<SubMessage>, exit: Option<int>)
    ensures Served(sent, exit) == Serve(conns, decode)
  {
    var buf := new byte[BUFSIZE];
    sent := [];
    var i := 0;
    while i < |conns|
      invariant i <= |conns|
      invariant Serve(conns, decode) ==
        Served(sent + Serve(conns[i..], decode).sent, Serve(conns[i..], decode).exit)
    {
      assert conns[i..][0] == conns[i] && conns[i..][1..] == conns[i + 1..];
      match conns[i] {
        case AcceptFailed =>
          return sent, Some(ACCEPT_FAILURE_EXIT);
        case ReadFailed =>
        case Readable(payload) =>
          var n := ReadInto(buf, payload);
          var bytes := buf[..n];
          var decoded := decode(bytes);
          if decoded.Some? {
            sent := sent + [decoded.value];
          }
      }
      i := i + 1;
    }
    assert conns[i..] == [];
    exit := None;
  }
}
