/** Clients of the queue: the reference model's replies are exactly what the
    queue produces, and the single-threaded behaviour its tests expect. A
    blocking `recv` on a queue that already holds a value, or that is closed
    and drained, returns what `try_recv` returns; these clients call
    `TryRecv` in its place. */
module Scenarios {
  import opened Outcomes
  import opened Wrapping
  import opened ListQueue
  import opened ChannelModel

  /** Runs `cmds` against a new queue and returns its replies, which are those
      of the reference model started from an empty open queue, and its final
      `len`, which is the number of values the reference model still holds
      (modulo the word size). */
  method Execute<T>(cmds: seq<Command<T>>) returns (replies: seq<Reply<T>>, len: Usize)
    ensures replies == Replay(State([], false), cmds).1
    ensures len == |Replay(State([], false), cmds).0.contents| % WORD
  {
    var q := new Queue<T>();
    replies := [];
    for i := 0 to |cmds|
      invariant q.Valid() && fresh(q.Repr)
      invariant Replay(State([], false), cmds[..i]) == (State(q.Contents, q.closed), replies)
    {
      assert cmds[..i + 1][..i] == cmds[..i];
      ghost var before := State(q.Contents, q.closed);
      var reply: Reply<T>;
      match cmds[i] {
        case Send(v) =>
          var r := q.TrySend(v);
          reply := Sent(r);
        case Recv =>
          var r := q.TryRecv();
          reply := Received(r);
        case Close =>
          var r := q.Close();
          reply := Closed(r);
      }
      assert Apply(before, cmds[i]) == (State(q.Contents, q.closed), reply);
      replies := replies + [reply];
    }
    assert cmds[..|cmds|] == cmds;
    len := q.Len();
  }

  /** Values sent by one producer come back to one consumer in the same order;
      once the queue is drained and closed, the consumer sees `Disconnected`. */
  method SendAllThenRecvAll<T>(xs: seq<T>) returns (ys: seq<T>, last: Result<T, TryRecvError>)
    ensures ys == xs
    ensures last == Err(TryRecvError.Disconnected)
  {
    var q := new Queue<T>();
    for i := 0 to |xs|
      invariant q.Valid() && fresh(q.Repr) && !q.closed
      invariant q.Contents == xs[..i]
    {
      var _ := q.TrySend(xs[i]);
    }
    var _ := q.Close();
    ys := [];
    last := q.TryRecv();
    while last.Ok?
      invariant q.Valid() && fresh(q.Repr) && q.closed
      invariant last.Ok? ==> ys + [last.value] + q.Contents == xs
      invariant last.Err? ==> ys + q.Contents == xs && q.Contents == []
      invariant last.Err? ==> last == Err(TryRecvError.Disconnected)
      decreases |q.Contents|, if last.Ok? then 1 else 0
    {
      ys := ys + [last.value];
      last := q.TryRecv();
    }
  }

  /** Send 7 and receive it, send 8 and receive it, then find the queue empty. */
  method Smoke() returns (first: Result<int, TryRecvError>, second: Result<int, TryRecvError>, third: Result<int, TryRecvError>)
    ensures first == Ok(7) && second == Ok(8) && third == Err(TryRecvError.Empty)
  {
    var q := new Queue<int>();
    var _ := q.TrySend(7);
    first := q.TryRecv();
    var _ := q.SendUntil(8, None);
    second := q.TryRecv();
    third := q.TryRecv();
  }

  /** Values sent before the close are still received, in order, and only then
      does the receiver see `Disconnected`. */
  method RecvAfterClose<T>(a: T, b: T, c: T) returns (got: seq<Result<T, TryRecvError>>)
    ensures got == [Ok(a), Ok(b), Ok(c), Err(TryRecvError.Disconnected)]
  {
    var q := new Queue<T>();
    var _ := q.TrySend(a);
    var _ := q.TrySend(b);
    var _ := q.TrySend(c);
    var _ := q.Close();
    var r1 := q.TryRecv();
    var r2 := q.TryRecv();
    var r3 := q.TryRecv();
    var r4 := q.TryRecv();
    got := [r1, r2, r3, r4];
  }

  /** The first close succeeds, a second reports that the queue was already
      closed, and a send after the close hands its value back. */
  method CloseTwice<T>(v: T) returns (first: bool, second: bool, sent: Result<(), TrySendError<T>>)
    ensures first && !second
    ensures sent == Err(TrySendError.Disconnected(v))
  {
    var q := new Queue<T>();
    first := q.Close();
    second := q.Close();
    sent := q.TrySend(v);
  }
}
