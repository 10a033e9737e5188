/** A reference model of the channel operations on an abstract state: the
    queued values and the closed flag. The queue of `ListQueue` is proved to
    produce exactly the replies of this model (see `Scenarios.Execute`); the
    lemmas here say what those replies guarantee: first-in first-out delivery
    with no value lost or duplicated, counter accounting, and a close that
    succeeds once. */
module ChannelModel {
  import opened Outcomes

  datatype Command<T> = Send(value: T) | Recv | Close

  datatype Reply<T> =
    | Sent(sent: Result<(), TrySendError<T>>)
    | Received(received: Result<T, TryRecvError>)
    | Closed(first: bool)

  datatype State<T> = State(contents: seq<T>, closed: bool)

  /** One command: `try_send`, `try_recv` or `close`. A closed state stays
      closed; the contents change only by a send on an open queue, which adds
      its value at the back, or by a receive, which takes the front value off
      and hands exactly that value out. */
  function Apply<T>(s: State<T>, c: Command<T>): (r: (State<T>, Reply<T>))
    ensures s.closed ==> r.0.closed
    ensures || r.0.contents == s.contents
            || (c.Send? && !s.closed && r.0.contents == s.contents + [c.value])
            || (c.Recv? && s.contents != [] && [s.contents[0]] + r.0.contents == s.contents
                && r.1 == Received(Ok(s.contents[0])))
  {
    match c
    case Send(v) =>
      if s.closed then (s, Sent(Err(TrySendError.Disconnected(v))))
      else (State(s.contents + [v], false), Sent(Ok(())))
    case Recv =>
      if s.contents == [] then
        (s, Received(Err(if s.closed then TryRecvError.Disconnected else TryRecvError.Empty)))
      else (State(s.contents[1..], s.closed), Received(Ok(s.contents[0])))
    case Close => (State(s.contents, true), Closed(!s.closed))
  }

  /** The final state and the replies after running `cmds` in order. */
  function Replay<T>(s: State<T>, cmds: seq<Command<T>>): (State<T>, seq<Reply<T>>)
    decreases |cmds|
  {
    if cmds == [] then (s, [])
    else
      var (s1, rs) := Replay(s, cmds[..|cmds| - 1]);
      var (s2, r) := Apply(s1, cmds[|cmds| - 1]);
      (s2, rs + [r])
  }

  /** The values handed to receivers, in the order they were received. */
  function Delivered<T>(rs: seq<Reply<T>>): seq<T>
    decreases |rs|
  {
    if rs == [] then []
    else
      var last := rs[|rs| - 1];
      Delivered(rs[..|rs| - 1]) + (if last.Received? && last.received.Ok? then [last.received.value] else [])
  }

  /** The values whose send was accepted, in the order they were sent. */
  function Accepted<T>(cmds: seq<Command<T>>, rs: seq<Reply<T>>): seq<T>
    decreases |cmds|
  {
    if cmds == [] || rs == [] then []
    else
      var c, r := cmds[|cmds| - 1], rs[|rs| - 1];
      Accepted(cmds[..|cmds| - 1], rs[..|rs| - 1]) + (if c.Send? && r == Sent(Ok(())) then [c.value] else [])
  }

  /** The number of `close` calls that reported success. */
  function FirstCloses<T>(rs: seq<Reply<T>>): nat
    decreases |rs|
  {
    if rs == [] then 0
    else FirstCloses(rs[..|rs| - 1]) + (if rs[|rs| - 1] == Closed(true) then 1 else 0)
  }

  /** Every accepted value is delivered exactly once, in the order the sends
      were accepted, or is still queued behind those delivered: the values
      received followed by those still queued are the values that were queued
      at the start followed by those accepted. */
  lemma {:induction false} Conservation<T>(s: State<T>, cmds: seq<Command<T>>)
    ensures |Replay(s, cmds).1| == |cmds|
    ensures Delivered(Replay(s, cmds).1) + Replay(s, cmds).0.contents
            == s.contents + Accepted(cmds, Replay(s, cmds).1)
    decreases |cmds|
  {
    if cmds != [] {
      var init := cmds[..|cmds| - 1];
      Conservation(s, init);
      var (s1, rs) := Replay(s, init);
      var (s2, r) := Apply(s1, cmds[|cmds| - 1]);
      assert Replay(s, cmds) == (s2, rs + [r]);
      assert (rs + [r])[..|rs|] == rs;
      match cmds[|cmds| - 1]
      case Send(v) =>
        assert Delivered(rs + [r]) == Delivered(rs);
        assert Accepted(cmds, rs + [r]) == Accepted(init, rs) + (if r == Sent(Ok(())) then [v] else []);
        if !s1.closed {
          assert Delivered(rs) + s2.contents == (Delivered(rs) + s1.contents) + [v];
        }
      case Recv =>
        assert Accepted(cmds, rs + [r]) == Accepted(init, rs);
        if s1.contents != [] {
          assert Delivered(rs + [r]) == Delivered(rs) + [s1.contents[0]];
          assert s1.contents == [s1.contents[0]] + s2.contents;
          assert Delivered(rs + [r]) + s2.contents == Delivered(rs) + s1.contents;
        }
      case Close =>
        assert Delivered(rs + [r]) == Delivered(rs);
        assert Accepted(cmds, rs + [r]) == Accepted(init, rs);
    }
  }

  /** Counter accounting: the number of values queued at the end is the number
      queued at the start plus the sends accepted minus the values received. */
  lemma LengthAccounting<T>(s: State<T>, cmds: seq<Command<T>>)
    ensures |Replay(s, cmds).0.contents| + |Delivered(Replay(s, cmds).1)|
            == |s.contents| + |Accepted(cmds, Replay(s, cmds).1)|
  {
    Conservation(s, cmds);
  }

  /** A close succeeds at most once: exactly one `close` reports success when
      the replay takes the state from open to closed, none otherwise, and a
      closed state never reopens. */
  lemma {:induction false} CloseSucceedsOnce<T>(s: State<T>, cmds: seq<Command<T>>)
    ensures s.closed ==> Replay(s, cmds).0.closed
    ensures FirstCloses(Replay(s, cmds).1) == if Replay(s, cmds).0.closed && !s.closed then 1 else 0
    decreases |cmds|
  {
    if cmds != [] {
      var init := cmds[..|cmds| - 1];
      CloseSucceedsOnce(s, init);
      var (s1, rs) := Replay(s, init);
      var (s2, r) := Apply(s1, cmds[|cmds| - 1]);
      assert Replay(s, cmds) == (s2, rs + [r]);
      assert (rs + [r])[..|rs|] == rs;
    }
  }
}
