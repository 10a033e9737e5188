/** The two tag bits carried in the low bits of the queue's `head` pointer and
    the atomic operations `pop` performs on them. `USE` marks a consumer that
    holds exclusive access on the fast path; `MULTI` marks the permanent switch
    to the multi-consumer slow path.

    Every operation below is one atomic instruction on the single `head` cell,
    so any interleaving of any number of consumers is a sequence of them: the
    lemmas over sequences (`Run`) therefore hold for every schedule. */
module TagBits {

  type Tag = bv2

  const USE: Tag := 1
  const MULTI: Tag := 2

  /** The instructions of `pop` that change `head`'s tag. A compare-and-swap
      compares address and tag together; `samePtr` says whether the address
      part matched. */
  datatype TagOp =
    | ClaimUse                              // fetch_or(USE)
    | ReleaseUse                            // fetch_and(!USE)
    | SetMulti                              // fetch_or(MULTI)
    | FastCas(samePtr: bool)                // CAS (head, USE) -> (next, 0)
    | SlowCas(expected: Tag, samePtr: bool) // CAS (head, expected) -> (next, MULTI)
  {
    /** The operations of the fast path. */
    predicate IsFastPath() {
      ClaimUse? || ReleaseUse? || FastCas?
    }
  }

  /** Whether a compare-and-swap expecting tag `expected` succeeds on tag `t`. */
  predicate CasSucceeds(t: Tag, expected: Tag, samePtr: bool) {
    samePtr && t == expected
  }

  /** The tag after one atomic operation. */
  function Step(t: Tag, op: TagOp): (r: Tag)
    ensures t & MULTI != 0 ==> r & MULTI != 0
    ensures op.IsFastPath() ==> r & MULTI == t & MULTI
    ensures op.FastCas? && CasSucceeds(t, USE, op.samePtr) ==> r == 0
    ensures op.SlowCas? && CasSucceeds(t, op.expected, op.samePtr) ==> r == MULTI
    ensures (op.FastCas? && !CasSucceeds(t, USE, op.samePtr)) || (op.SlowCas? && !CasSucceeds(t, op.expected, op.samePtr)) ==> r == t
  {
    match op
    case ClaimUse => t | USE
    case ReleaseUse => t & !USE
    case SetMulti => t | MULTI
    case FastCas(same) => if CasSucceeds(t, USE, same) then 0 else t
    case SlowCas(e, same) => if CasSucceeds(t, e, same) then MULTI else t
  }

  /** The tag after a sequence of atomic operations, in order. */
  function Run(t: Tag, ops: seq<TagOp>): Tag
    decreases |ops|
  {
    if ops == [] then t else Run(Step(t, ops[0]), ops[1..])
  }

  /** Running two sequences one after the other is running their concatenation. */
  lemma {:induction false} RunAppend(t: Tag, a: seq<TagOp>, b: seq<TagOp>)
    ensures Run(t, a + b) == Run(Run(t, a), b)
    decreases |a|
  {
    if a == [] {
      assert a + b == b;
    } else {
      assert (a + b)[0] == a[0];
      assert (a + b)[1..] == a[1..] + b;
      RunAppend(Step(t, a[0]), a[1..], b);
    }
  }

  /** Once `MULTI` is set, no schedule of `pop` operations clears it. */
  lemma {:induction false} MultiNeverCleared(t: Tag, ops: seq<TagOp>)
    requires t & MULTI != 0
    ensures Run(t, ops) & MULTI != 0
    decreases |ops|
  {
    if ops != [] {
      MultiNeverCleared(Step(t, ops[0]), ops[1..]);
    }
  }

  /** The fast path alone never sets (or clears) `MULTI`: as long as only
      fast-path operations run, the queue stays in single-consumer mode. */
  lemma {:induction false} FastPathKeepsMode(t: Tag, ops: seq<TagOp>)
    requires forall i :: 0 <= i < |ops| ==> ops[i].IsFastPath()
    ensures Run(t, ops) & MULTI == t & MULTI
    decreases |ops|
  {
    if ops != [] {
      FastPathKeepsMode(Step(t, ops[0]), ops[1..]);
    }
  }

  /** The upgrade is permanent: whatever ran before a consumer set `MULTI`,
      every later schedule leaves it set. */
  lemma UpgradeIsPermanent(t: Tag, before: seq<TagOp>, after: seq<TagOp>)
    ensures Run(t, before + [SetMulti] + after) & MULTI != 0
  {
    RunAppend(t, before + [SetMulti], after);
    RunAppend(t, before, [SetMulti]);
    var u := Run(t, before + [SetMulti]);
    assert u & MULTI != 0;
    MultiNeverCleared(u, after);
  }

  /** A one-operation schedule is one step. */
  lemma RunOne(t: Tag, op: TagOp)
    ensures Run(t, [op]) == Step(t, op)
  {
    assert [op][1..] == [];
  }

  /** Running one operation in front of a schedule. */
  lemma RunCons(t: Tag, op: TagOp, rest: seq<TagOp>)
    ensures Run(t, [op] + rest) == Run(Step(t, op), rest)
  {
    assert ([op] + rest)[0] == op;
    assert ([op] + rest)[1..] == rest;
  }

  /** The tag operations a consumer performs, as written at lines 106-137,
      after its claim at line 105 returned the non-zero tag `seen`: it leaves
      the fast loop and sets `MULTI`, whatever `seen` was. */
  function LeaveFastLoopAsWritten(seen: Tag): seq<TagOp>
  {
    [SetMulti]
  }

  /** The same exit with the claim undone: when `seen` had no `USE` bit, the
      `USE` bit now set is this consumer's own (set by its claim at line 105),
      so it releases it before setting `MULTI`. */
  function LeaveFastLoop(seen: Tag): seq<TagOp>
  {
    if seen & USE == 0 then [ReleaseUse, SetMulti] else [SetMulti]
  }

  /** As written, a consumer that leaves the fast loop because it saw `MULTI`
      alone keeps the `USE` bit its own claim set, and then waits at lines
      138-140 for that bit to clear. */
  lemma LeaveFastLoopKeepsOwnClaim()
    ensures MULTI != 0
    ensures Run(MULTI, [ClaimUse] + LeaveFastLoopAsWritten(MULTI)) == USE | MULTI
  {
    RunCons(MULTI, ClaimUse, [SetMulti]);
    RunOne(USE | MULTI, SetMulti);
  }

  /** With the claim undone, leaving the fast loop changes only `MULTI`: the
      `USE` bit is as the consumer found it, so it waits at lines 138-140 only
      for a bit that another consumer holds. */
  lemma LeaveFastLoopReleasesOwnClaim(seen: Tag)
    requires seen != 0
    ensures Run(seen, [ClaimUse] + LeaveFastLoop(seen)) == seen | MULTI
  {
    var t := Step(seen, ClaimUse);
    RunCons(seen, ClaimUse, LeaveFastLoop(seen));
    if seen & USE == 0 {
      RunCons(t, ReleaseUse, [SetMulti]);
      RunOne(Step(t, ReleaseUse), SetMulti);
    } else {
      RunOne(t, SetMulti);
    }
  }

  /** Once the tag is `USE | MULTI`, only a release or a successful slow-path
      compare-and-swap clears `USE`. A consumer waiting at lines 138-140 runs
      no tag operation, and a consumer arriving later sees `MULTI` at line 103
      and takes the slow path, so only a successful slow-path pop frees it. */
  lemma OnlyReleaseOrSlowCasClearsUse(op: TagOp)
    ensures Step(USE | MULTI, op) & USE == 0 <==>
              op.ReleaseUse? || (op.SlowCas? && CasSucceeds(USE | MULTI, op.expected, op.samePtr))
  {
  }

  /** Two consumers, as written. Consumer A claims `USE` (seeing 0); consumer
      B's claim sees `USE`, so B leaves the fast loop and sets `MULTI`; A's
      compare-and-swap expecting exactly `USE` fails and A releases `USE` at
      line 133, still inside the loop of line 104; A's next claim at line 105
      sees `MULTI`, so A leaves the loop too, and the tag is `USE | MULTI`
      with the `USE` bit A's own. Both then wait at lines 138-140 (unless B
      looked while A had released), and only another consumer's successful
      slow-path pop clears it (`OnlyReleaseOrSlowCasClearsUse`). */
  lemma ContendedUpgradeAsWritten(samePtr: bool)
    ensures Run(0, [ClaimUse]) == USE
    ensures Run(0, [ClaimUse, ClaimUse] + LeaveFastLoopAsWritten(USE) + [FastCas(samePtr), ReleaseUse]) == MULTI
    ensures Run(0, [ClaimUse, ClaimUse] + LeaveFastLoopAsWritten(USE) + [FastCas(samePtr), ReleaseUse]
                   + [ClaimUse] + LeaveFastLoopAsWritten(MULTI)) == USE | MULTI
  {
    RunOne(0, ClaimUse);
    var a := [ClaimUse, ClaimUse] + LeaveFastLoopAsWritten(USE) + [FastCas(samePtr), ReleaseUse];
    assert a == [ClaimUse] + ([ClaimUse] + ([SetMulti] + ([FastCas(samePtr)] + [ReleaseUse])));
    RunCons(0, ClaimUse, [ClaimUse] + ([SetMulti] + ([FastCas(samePtr)] + [ReleaseUse])));
    RunCons(USE, ClaimUse, [SetMulti] + ([FastCas(samePtr)] + [ReleaseUse]));
    RunCons(USE, SetMulti, [FastCas(samePtr)] + [ReleaseUse]);
    RunCons(USE | MULTI, FastCas(samePtr), [ReleaseUse]);
    RunOne(USE | MULTI, ReleaseUse);
    assert a + [ClaimUse] + LeaveFastLoopAsWritten(MULTI) == a + ([ClaimUse] + LeaveFastLoopAsWritten(MULTI));
    RunAppend(0, a, [ClaimUse] + LeaveFastLoopAsWritten(MULTI));
    LeaveFastLoopKeepsOwnClaim();
  }

  /** The same two consumers with the claim undone on leaving the fast loop:
      when A leaves, the tag is `MULTI` alone, so both consumers stop waiting
      at lines 138-140 and go on to the slow path. */
  lemma ContendedUpgrade(samePtr: bool)
    ensures Run(0, [ClaimUse]) == USE
    ensures Run(0, [ClaimUse, ClaimUse] + LeaveFastLoop(USE) + [FastCas(samePtr), ReleaseUse]) == MULTI
    ensures Run(0, [ClaimUse, ClaimUse] + LeaveFastLoop(USE) + [FastCas(samePtr), ReleaseUse]
                   + [ClaimUse] + LeaveFastLoop(MULTI)) == MULTI
  {
    ContendedUpgradeAsWritten(samePtr);
    assert LeaveFastLoop(USE) == LeaveFastLoopAsWritten(USE);
    var a := [ClaimUse, ClaimUse] + LeaveFastLoop(USE) + [FastCas(samePtr), ReleaseUse];
    assert a + [ClaimUse] + LeaveFastLoop(MULTI) == a + ([ClaimUse] + LeaveFastLoop(MULTI));
    RunAppend(0, a, [ClaimUse] + LeaveFastLoop(MULTI));
    LeaveFastLoopReleasesOwnClaim(MULTI);
  }
}
