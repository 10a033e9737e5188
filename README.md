# Unbounded channel queue (crossbeam `list` flavour), modelled in Dafny

This project models the queue behind crossbeam's unbounded channel
(`src/impls/list.rs`): a singly-linked list of nodes that starts with one
sentinel node, a `head` pointer whose two low tag bits drive an adaptive
single-consumer / multi-consumer removal algorithm, a `tail` pointer that
producers swap, wrapping `sends` and `recvs` counters, and a `closed` flag.
The channel operations on top of it (`try_send`, `send_until`, `try_recv`,
`len`, `is_empty`, `is_full`, `capacity`, `close`, `is_closed`) and the
teardown walk of `Drop` are modelled too.

The atomic instructions are read sequentially: each operation runs to
completion before the next starts. Under that reading the queue is a heap
data structure updated in place, and the model is a Dafny class over `Node`
objects with a ghost chain of nodes (`Nodes`) from `head` to `tail` and a
ghost sequence of queued values (`Contents`). The object invariant `Valid()`
states the reachability of `tail` from `head`, that the chain ends at `tail`,
that the nodes are distinct, that the node after the sentinel holds the
oldest value, the counter accounting `sends == (recvs + |Contents|) mod 2^64`,
and that no consumer is half-way through the fast path (`USE` is clear).

The tag bits are the one part whose reasoning also covers concurrency: each
tag operation of `pop` is one atomic instruction on the single `head` cell,
so any schedule of any number of consumers is a sequence of them. `TagBits`
proves over arbitrary such sequences that `MULTI`, once set, is never
cleared, and that the fast path alone never changes it.

Files:
- `wrapping.dfy` (module `Wrapping`): 64-bit `usize` wrapping add and sub.
- `tag_bits.dfy` (module `TagBits`): the `USE`/`MULTI` state machine.
- `outcomes.dfy` (module `Outcomes`): `Option`, `Result`, the channel error types.
- `list_queue.dfy` (module `ListQueue`): `Node`, `Queue`, the `try_recv` mapping.
- `channel_model.dfy` (module `ChannelModel`): a reference model of the channel
  on an abstract state (queued values, closed flag), with its FIFO and
  accounting lemmas.
- `scenarios.dfy` (module `Scenarios`): clients of the queue; `Execute` proves
  that the queue produces the reference model's replies for every command
  sequence, and the others mirror the source's single-threaded tests.

## Model

| member | source | states |
|---|---|---|
| `Wrapping.WrappingAdd` | src/impls/list.rs:91 | `fetch_add` on a `usize` counter: the stored value is congruent to the sum modulo 2^64 |
| `Wrapping.WrappingSub` | src/impls/list.rs:246 | `wrapping_sub` is the inverse of wrapping addition: adding the result back to `b` gives `a` |
| `Wrapping.AddOneAfterReduce` | src/impls/list.rs:91 | incrementing a reduced counter equals reducing the incremented count, so `push` keeps the counter accounting |
| `Wrapping.ReceiveStep` | src/impls/list.rs:127 | moving one value from the queue to `recvs` keeps `recvs + queued` unchanged modulo 2^64, so `pop` keeps the counter accounting |
| `Wrapping.SubAfterAdd` | src/impls/list.rs:240-251 | `sends - recvs` (wrapping) equals the number of queued values modulo 2^64 when `sends` is `recvs` plus that number |
| `TagBits.Step` | src/impls/list.rs:103-153 | one tag operation never clears `MULTI`; fast-path operations never change `MULTI`; a successful fast-path CAS leaves tag 0; a successful slow-path CAS installs exactly `MULTI`; a failed CAS leaves the tag as it was |
| `TagBits.MultiNeverCleared` | src/impls/list.rs:103-153 | under every schedule of tag operations, once `MULTI` is set it stays set |
| `TagBits.FastPathKeepsMode` | src/impls/list.rs:104-135 | a schedule made only of fast-path operations (claim, release, fast CAS) leaves the `MULTI` bit as it found it |
| `TagBits.UpgradeIsPermanent` | src/impls/list.rs:137 | whatever ran before, after some consumer's `fetch_or(MULTI)` every later schedule keeps `MULTI` set |
| `TagBits.LeaveFastLoopKeepsOwnClaim` | src/impls/list.rs:105-107 | as written, a consumer whose claim at line 105 sees `MULTI` alone leaves the fast loop with both tag bits set: it keeps the `USE` bit it has just set itself |
| `TagBits.LeaveFastLoopReleasesOwnClaim` | src/impls/list.rs:105-107 | with the claim undone on leaving, a consumer that saw any non-zero tag leaves the `USE` bit as it found it and only adds `MULTI` |
| `TagBits.OnlyReleaseOrSlowCasClearsUse` | src/impls/list.rs:103-153 | from both bits set, exactly a release or a successful slow-path CAS clears `USE` |
| `TagBits.ContendedUpgradeAsWritten` | src/impls/list.rs:104-140 | two consumers as written: B's claim sees `USE` and B sets `MULTI`; A's fast CAS fails, A releases at line 133 and, looping back, its claim sees `MULTI`; the tag ends with both bits set with A's own `USE` bit, which both then wait on |
| `TagBits.ContendedUpgrade` | src/impls/list.rs:104-140 | the same schedule with the claim undone on leaving the fast loop: the tag ends at `MULTI` alone, so both waiting consumers go on to the slow path |
| `ListQueue.RecvResult` | src/impls/list.rs:199-208 | `try_recv` yields `Ok` exactly when `pop` yields a value, and then that value; `Disconnected` exactly when `pop` is empty and the queue is closed; `Empty` exactly when empty and open |
| `ListQueue.Node.constructor` | src/impls/list.rs:82-85 | a new node holds the given value and has a null `next` |
| `ListQueue.Queue.constructor` | src/impls/list.rs:48-79 | a new queue is valid and empty; `head == tail` is one sentinel with null `next` and no value; both counters 0, open, tag 0 |
| `ListQueue.Queue.EmptyIffSentinelAlone` | src/impls/list.rs:112-117 | the queue holds no value exactly when `head.next` is null, and exactly when `tail == head` |
| `ListQueue.Queue.Push` | src/impls/list.rs:81-95 | the new node becomes the tail and the old tail's `next`; contents become old contents followed by the value; `sends` rises by one (wrapping); `head`, `recvs`, `closed`, tag unchanged; invariant kept |
| `ListQueue.Queue.AdvanceHead` | src/impls/list.rs:123-129 | a successful removal: returns the oldest value, the node after the sentinel becomes `head`, the contents lose their first element, `recvs` rises by one (wrapping), invariant kept, `tail`, `sends`, `closed`, tag unchanged |
| `ListQueue.Queue.Pop` | src/impls/list.rs:97-166 | on an empty queue returns `None` and changes nothing, on both paths; otherwise returns the value in `head.next`, that node becomes `head`, `recvs` rises by one and the contents lose their first element; the tag is back where it started; `tail`, `sends`, `closed` unchanged |
| `ListQueue.Queue.TrySend` | src/impls/list.rs:174-182 | when closed returns `Disconnected(value)` and changes nothing; otherwise enqueues the value and returns `Ok` (never `Full`) |
| `ListQueue.Queue.SendUntil` | src/impls/list.rs:184-196 | the same as `TrySend` whatever the deadline: `Disconnected(value)` and no change when closed, otherwise enqueue and `Ok` |
| `ListQueue.Queue.TryRecv` | src/impls/list.rs:198-209 | returns `Ok` of the oldest value and removes it; on an empty queue changes nothing and returns `Disconnected` when closed, `Empty` when open |
| `ListQueue.Queue.Len` | src/impls/list.rs:240-251 | returns `sends - recvs` (wrapping), which is the number of queued values modulo 2^64 |
| `ListQueue.Queue.IsEmpty` | src/impls/list.rs:253-255 | true exactly when the length is 0; so, below 2^64 values, exactly when nothing is queued |
| `ListQueue.Queue.IsFull` | src/impls/list.rs:257-259 | never full |
| `ListQueue.Queue.Capacity` | src/impls/list.rs:261-263 | no capacity (`None`) |
| `ListQueue.Queue.Close` | src/impls/list.rs:265-272 | returns true exactly when the queue was open; afterwards it is closed; nothing else changes |
| `ListQueue.Queue.IsClosed` | src/impls/list.rs:274-276 | reports the closed flag |
| `ListQueue.Queue.Drop` | src/impls/list.rs:279-297 | walking from `head` drops exactly the queued values, in order, and frees one node per value plus the sentinel |
| `ChannelModel.Apply` | src/impls/list.rs:174-209 | the reference step of `try_send`, `try_recv` and `close`: a closed state stays closed; the contents change only by a send on an open queue adding its value at the back, or by a receive taking the front value off and handing out exactly that value |
| `ChannelModel.Conservation` | src/impls/list.rs:81-166 | for every command sequence, the values received followed by those still queued equal those queued at the start followed by the accepted sends: FIFO order, nothing lost, nothing duplicated |
| `ChannelModel.LengthAccounting` | src/impls/list.rs:240-251 | values queued at the end = queued at the start + accepted sends - values received |
| `ChannelModel.CloseSucceedsOnce` | src/impls/list.rs:265-272 | a closed state never reopens, and exactly one `close` reports success when the queue goes from open to closed, none otherwise |
| `Scenarios.Execute` | src/impls/list.rs:174-276 | for every sequence of sends, receives and closes, the queue's replies are the reference model's, and its final `len` is the number of values the reference model still holds (modulo 2^64) |
| `Scenarios.SendAllThenRecvAll` | src/impls/list.rs:424-440 | one producer's values come back to one consumer in the same order, then `Disconnected` after close |
| `Scenarios.Smoke` | src/impls/list.rs:318-327 | send 7 / receive 7, send 8 / receive 8, then `Empty` |
| `Scenarios.RecvAfterClose` | src/impls/list.rs:392-406 | three values sent before the close are received in order, then `Disconnected` |
| `Scenarios.CloseTwice` | src/impls/list.rs:265-272 | the first close returns true, the second false, and a later send returns `Disconnected` with its value |

## Left out

- Atomic memory orderings and interleavings: `swap`, `fetch_add`, `fetch_or`, `fetch_and` and `compare_and_swap` are sequential field updates. Only the tag-bit lemmas quantify over schedules; linearizability of push and pop is not modelled.
- The retry branches for concurrent callers: the fast path leaving its loop at line 106 because the tag its claim saw was not 0 (another consumer holds `USE`, or `MULTI` is already set), the wait for `USE` to clear (138-140), the yield-and-retry when `tail` has moved but `next` is not yet linked (119, 162), and a failed CAS (131-133). Under the sequential reading none of them runs; `Pop` asserts the facts that rule them out, and the tag transitions they perform are covered by `TagBits`.
- The liveness of the upgrade (whether the consumers waiting at lines 138-140 ever go on) is not modelled beyond the two-consumer schedules of `TagBits.ContendedUpgradeAsWritten` and `TagBits.ContendedUpgrade`.
- ListQueue.Queue.Pop: the queue's own `Pop` never sets `MULTI`, because it takes place when no other consumer holds `USE`; the upgrade is modelled only at the level of tag operations (`TagBits.ContendedUpgradeAsWritten`, `TagBits.ContendedUpgrade`, `TagBits.UpgradeIsPermanent`).
- ListQueue.Queue.Len: the loop that re-reads `sends` until two reads agree is modelled by its single round, since in a sequential run the re-read always agrees.
- Epoch-based reclamation (`epoch::unprotected`, `epoch::pin`, `defer_free`) and the raw frees through `Vec::from_raw_parts`: physical deallocation is outside the model; a popped head simply leaves the queue's footprint `Repr`, and `Drop` counts the nodes it would free.
- `recv_until` and the `Monitor` wakeups (`wakeup_one` in the sends, `wakeup_all` in `close`, `register`/`unregister`) and the `actor` parking: they depend on the clock and on blocking, which are external. Deadlines are a plain parameter that `SendUntil` ignores, as the source does.
- Padding fields, `#[repr(C)]`, `mem::uninitialized` (the sentinel's value is modelled as `None`; a popped node that becomes the new head keeps its already-delivered value) and the pointer cast in `Drop`'s `drop_in_place`.
- The error types live in the `err` module, which is not part of this model; `Outcomes` declares the variants the channel operations use.
- A 64-bit `usize` is assumed for the counters.
- The multi-threaded tests (`recv`, `recv_timeout`, `try_recv`, `close_signals_receiver`, `mpmc`) and the timeout case of `smoke`; `spsc` is modelled with the producer finishing before the consumer starts, and blocking `recv` calls that find a value or a closed, drained queue are modelled by `TryRecv`.

## Findings

| source | as written | input that shows it | evidently intended | confidence | as-written member | corrected member |
|---|---|---|---|---|---|---|
| src/impls/list.rs:104-140 | a consumer whose `fetch_or(USE)` at line 105 returns a non-zero tag leaves the fast loop at line 106 without undoing its own claim, sets `MULTI` and waits at 138-140 for `USE` to clear, even when the `USE` bit is the one it just set | two consumers: A claims (tag `USE`); B's claim sees `USE`, B sets `MULTI`; A's CAS at 124 fails, A releases at 133 and loops back; A's claim sees `MULTI`, A leaves the loop; both tag bits are set with A's own bit, and both A and B wait (unless B looked while A had released) until some other consumer's slow-path CAS at 153 succeeds | a consumer leaving the fast loop releases the `USE` bit it set itself when the tag it saw had no `USE` bit, so it waits only for another holder, and the two consumers end at `MULTI` and go on to the slow path | medium; not executed | TagBits.ContendedUpgradeAsWritten | TagBits.ContendedUpgrade |
