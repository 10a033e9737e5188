/** The unbounded channel's queue: a singly-linked list with a sentinel node,
    whose `head` and `tail` pointers, send and receive counters, closed flag
    and head tag are updated in place. The atomic instructions of the source
    are read as ordinary sequential field updates: this module describes one
    operation at a time, with no consumer or producer in the middle of its own
    operation. */
module ListQueue {
  import opened Wrapping
  import opened TagBits
  import opened Outcomes

  /** One link of the queue. The sentinel created with the queue holds no
      value (`None`); every pushed node holds `Some` value. */
  class Node<T> {
    var next: Node?<T>
    var value: Option<T>

    constructor (value: Option<T>)
      ensures this.value == value && next == null
    {
      this.value := value;
      next := null;
    }
  }

  /** The mapping `try_recv` applies to the outcome of `pop`. */
  function RecvResult<T>(popped: Option<T>, closed: bool): (r: Result<T, TryRecvError>)
    ensures r.Ok? <==> popped.Some?
    ensures r.Ok? ==> r.value == popped.value
    ensures r.Err? && r.error == TryRecvError.Disconnected <==> popped.None? && closed
    ensures r.Err? && r.error == TryRecvError.Empty <==> popped.None? && !closed
  {
    match popped
    case None => Err(if closed then TryRecvError.Disconnected else TryRecvError.Empty)
    case Some(v) => Ok(v)
  }

  class Queue<T> {
    var head: Node<T>
    /** The tag bits of the `head` pointer. */
    var tag: Tag
    var recvs: Usize
    var tail: Node<T>
    var sends: Usize
    var closed: bool

    /** The values waiting in the queue, oldest first. */
    ghost var Contents: seq<T>
    /** The chain of nodes from `head` (the sentinel) to `tail`. */
    ghost var Nodes: seq<Node<T>>
    ghost var Repr: set<object>

    ghost predicate Valid()
      reads this, Repr
      ensures Valid() ==> this in Repr
    {
      && this in Repr
      && |Nodes| == |Contents| + 1
      && (forall i :: 0 <= i < |Nodes| ==> Nodes[i] in Repr)
      && Nodes[0] == head
      && Nodes[|Nodes| - 1] == tail
      // following `next` from `head` reaches `tail`, where the chain ends
      && (forall i :: 0 <= i < |Nodes| - 1 ==> Nodes[i].next == Nodes[i + 1])
      && tail.next == null
      && (forall i, j :: 0 <= i < j < |Nodes| ==> Nodes[i] != Nodes[j])
      // the node after the sentinel holds the oldest value, and so on
      && (forall i :: 0 <= i < |Contents| ==> Nodes[i + 1].value == Some(Contents[i]))
      // counter accounting: every queued value was counted by `sends` and not yet by `recvs`
      && sends == (recvs + |Contents|) % WORD
      // no consumer is in the middle of the fast path
      && tag & USE == 0
    }

    /** The queue is empty exactly when the sentinel has no successor, and
        exactly when `head` and `tail` coincide: the two tests `pop` makes. */
    lemma EmptyIffSentinelAlone()
      requires Valid()
      ensures Contents == [] <==> head.next == null
      ensures Contents == [] <==> head == tail
    {
      if Contents != [] {
        assert Nodes[0].next == Nodes[1];
        assert Nodes[0] != Nodes[|Nodes| - 1];
      }
    }

    constructor ()
      ensures Valid() && fresh(Repr)
      ensures Contents == []
      ensures head == tail && head.next == null && head.value == None
      ensures sends == 0 && recvs == 0 && !closed && tag == 0
    {
      var node := new Node<T>(None);
      head, tag, recvs := node, 0, 0;
      tail, sends := node, 0;
      closed := false;
      Contents, Nodes := [], [node];
      Repr := {this, node};
    }

    /** Appends `value` behind the current tail. */
    method Push(value: T)
      requires Valid()
      modifies Repr
      ensures Valid() && fresh(Repr - old(Repr))
      ensures Contents == old(Contents) + [value]
      ensures fresh(tail) && old(tail).next == tail && tail.next == null && tail.value == Some(value)
      ensures sends == WrappingAdd(old(sends), 1)
      ensures head == old(head) && recvs == old(recvs) && closed == old(closed) && tag == old(tag)
    {
      var node := new Node<T>(Some(value));
      // tail.swap(new)
      var prev := tail;
      tail := node;
      // sends.fetch_add(1)
      AddOneAfterReduce(recvs + |Contents|);
      sends := WrappingAdd(sends, 1);
      // old.next.store(new)
      prev.next := node;
      Nodes := Nodes + [node];
      Contents := Contents + [value];
      Repr := Repr + {node};
    }

    /** A successful removal, once the compare-and-swap has installed its
        tag: `head` moves to the node after the sentinel, which becomes the
        new sentinel, and `recvs` is incremented. */
    method AdvanceHead() returns (r: Option<T>)
      requires Valid() && Contents != []
      modifies this
      ensures Valid() && Repr <= old(Repr)
      ensures r == Some(old(Contents)[0])
      ensures head == old(head.next) && Contents == old(Contents)[1..]
      ensures recvs == WrappingAdd(old(recvs), 1)
      ensures tail == old(tail) && sends == old(sends) && closed == old(closed) && tag == old(tag)
    {
      var h := head;
      var next := h.next;
      assert next == Nodes[1] && next.value == Some(Contents[0]);
      head := next;
      ReceiveStep(recvs, |Contents|);
      recvs := WrappingAdd(recvs, 1);
      r := next.value;
      Nodes := Nodes[1..];
      Contents := Contents[1..];
      Repr := Repr - {h};
    }

    /** Removes the oldest value, or reports that there is none. Both the
        single-consumer fast path and the multi-consumer slow path are
        modelled; which one runs depends on the `MULTI` tag bit. */
    method Pop() returns (r: Option<T>)
      requires Valid()
      modifies this
      ensures Valid() && Repr <= old(Repr)
      ensures tail == old(tail) && sends == old(sends) && closed == old(closed) && tag == old(tag)
      ensures old(Contents) == [] ==> r == None && unchanged(this)
      ensures old(Contents) != [] ==>
                && r == Some(old(Contents)[0])
                && head == old(head.next)
                && recvs == WrappingAdd(old(recvs), 1)
                && Contents == old(Contents)[1..]
    {
      EmptyIffSentinelAlone();
      var h := head;
      var next := h.next;
      if tag & MULTI == 0 {
        // Fast path: claim exclusive access.
        var seen := tag;
        tag := Step(tag, ClaimUse);
        // No other consumer holds USE, so the claim succeeds.
        assert seen == 0;
        if next == null {
          tag := Step(tag, ReleaseUse);
          // Truly empty: the tail is the head.
          assert tail == h;
          return None;
        }
        // The compare-and-swap from (h, USE) to (next, 0) succeeds.
        assert CasSucceeds(tag, USE, head == h);
        tag := Step(tag, FastCas(head == h));
      } else {
        // Slow path.
        if next == null {
          assert tail == h;
          return None;
        }
        // The compare-and-swap from (h, tag) to (next, MULTI) succeeds.
        tag := Step(tag, SlowCas(tag, head == h));
      }
      r := AdvanceHead();
    }

    /** `try_send`: refuses with the value when closed, otherwise enqueues.
        The queue has no capacity limit, so it never reports `Full`. */
    method TrySend(value: T) returns (r: Result<(), TrySendError<T>>)
      requires Valid()
      modifies Repr
      ensures Valid() && fresh(Repr - old(Repr))
      ensures old(closed) ==> r == Err(TrySendError.Disconnected(value)) && unchanged(this)
      ensures !old(closed) ==> r == Ok(()) && Contents == old(Contents) + [value] && sends == WrappingAdd(old(sends), 1)
      ensures head == old(head) && recvs == old(recvs) && closed == old(closed) && tag == old(tag)
    {
      if closed {
        return Err(TrySendError.Disconnected(value));
      }
      Push(value);
      r := Ok(());
    }

    /** `send_until`: the same as `try_send`; an unbounded queue never waits,
        so the deadline plays no part. */
    method SendUntil(value: T, deadline: Option<Instant>) returns (r: Result<(), SendTimeoutError<T>>)
      requires Valid()
      modifies Repr
      ensures Valid() && fresh(Repr - old(Repr))
      ensures old(closed) ==> r == Err(SendTimeoutError.Disconnected(value)) && unchanged(this)
      ensures !old(closed) ==> r == Ok(()) && Contents == old(Contents) + [value] && sends == WrappingAdd(old(sends), 1)
      ensures head == old(head) && recvs == old(recvs) && closed == old(closed) && tag == old(tag)
    {
      if closed {
        return Err(SendTimeoutError.Disconnected(value));
      }
      Push(value);
      r := Ok(());
    }

    /** `try_recv`: the oldest value, or why there is none. */
    method TryRecv() returns (r: Result<T, TryRecvError>)
      requires Valid()
      modifies this
      ensures Valid() && Repr <= old(Repr)
      ensures old(Contents) != [] ==>
                && r == Ok(old(Contents)[0])
                && Contents == old(Contents)[1..]
                && recvs == WrappingAdd(old(recvs), 1)
      ensures old(Contents) == [] ==>
                && r == Err(if closed then TryRecvError.Disconnected else TryRecvError.Empty)
                && unchanged(this)
      ensures tail == old(tail) && sends == old(sends) && closed == old(closed) && tag == old(tag)
    {
      var popped := Pop();
      r := RecvResult(popped, closed);
    }

    /** The number of queued values, as the wrapping difference of the two
        counters. `len` re-reads `sends` until two reads agree around the read
        of `recvs`; in a sequential run the first re-read already agrees, so
        its loop ends in the first round. */
    method Len() returns (n: Usize)
      requires Valid()
      ensures n == WrappingSub(sends, recvs)
      ensures n == |Contents| % WORD
    {
      var s := sends;
      var r := recvs;
      assert sends == s;
      n := WrappingSub(s, r);
      SubAfterAdd(recvs, |Contents|);
    }

    method IsEmpty() returns (e: bool)
      requires Valid()
      ensures e <==> |Contents| % WORD == 0
      ensures |Contents| < WORD ==> (e <==> Contents == [])
    {
      var n := Len();
      e := n == 0;
    }

    /** An unbounded queue is never full. */
    function IsFull(): (full: bool)
      ensures !full
    {
      false
    }

    /** An unbounded queue has no capacity. */
    function Capacity(): (c: Option<nat>)
      ensures c.None?
    {
      None
    }

    /** Marks the queue closed; reports whether this call was the one that
        closed it. Waking the blocked receivers is not modelled. */
    method Close() returns (r: bool)
      requires Valid()
      modifies this
      ensures Valid()
      ensures r == !old(closed) && closed
      ensures head == old(head) && tail == old(tail) && tag == old(tag)
      ensures sends == old(sends) && recvs == old(recvs)
      ensures Contents == old(Contents) && Nodes == old(Nodes) && Repr == old(Repr)
    {
      var was := closed;
      closed := true;
      if was {
        return false;
      }
      r := true;
    }

    function IsClosed(): (c: bool)
      reads this
      ensures c == closed
    {
      closed
    }

    /** Teardown: walks the chain from `head`, drops the value of every node
        after the sentinel, and frees every node, the sentinel included.
        Returns the dropped values in chain order and the number of nodes
        freed. */
    method Drop() returns (dropped: seq<T>, freed: nat)
      requires Valid()
      ensures dropped == Contents
      ensures freed == |Contents| + 1
    {
      var h: Node?<T> := head;
      ghost var k := 0;
      dropped, freed := [], 0;
      while h != null
        invariant 0 <= k <= |Nodes|
        invariant h == if k < |Nodes| then Nodes[k] else null
        invariant freed == k
        invariant dropped == Contents[..if k < |Nodes| then k else |Contents|]
        decreases |Nodes| - k
      {
        var next := h.next;
        if next != null {
          assert k + 1 < |Nodes| && next == Nodes[k + 1];
          assert next.value == Some(Contents[k]);
          dropped := dropped + [next.value.value];
        }
        freed := freed + 1;
        h := next;
        k := k + 1;
      }
    }
  }
}
