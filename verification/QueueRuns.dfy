/** Whole runs of the two-tier queue: what it loses (nothing), the order it keeps, and how far it can let
    one slot overtake another. Only positions matter here, so `pop_matched_thread` is the removal of any
    staged position. */
module QueueRuns {
  import opened Wrappers
  import opened Slots
  import opened Queue

  datatype Op =
    | Fresh(id: SlotId)      // enqueue
    | AtHead(id: SlotId)     // enqueue_head
    | Pop                    // pop_next
    | Take(at: nat)          // pop_matched_thread: the staged slot at this position, if there is one
    | Drop(id: SlotId)       // remove

  datatype Caps = Caps(staging: int, acceptance: int)

  function Apply(q: QueueState, op: Op, caps: Caps): QueueState {
    match op
    case Fresh(id) => AfterEnqueue(q, id, Admit(q, caps.staging, caps.acceptance))
    case AtHead(id) => if q.closed then q else q.(staging := [id] + q.staging)
    case Pop => AfterPop(q, caps.staging)
    case Take(i) => if i < |q.staging| then q.(staging := Without(q.staging, i)) else q
    case Drop(id) => AfterRemove(q, id)
  }

  /** The slots an operation puts into the queue. */
  function Entering(q: QueueState, op: Op, caps: Caps): seq<SlotId> {
    match op
    case Fresh(id) =>
      var a := Admit(q, caps.staging, caps.acceptance);
      if a == Staged || a == Buffered then [id] else []
    case AtHead(id) => if q.closed then [] else [id]
    case Pop | Take(_) | Drop(_) => []
  }

  /** The slots an operation hands out. */
  function HandedOut(q: QueueState, op: Op, caps: Caps): seq<SlotId> {
    match op
    case Fresh(_) | AtHead(_) => []
    case Pop => (match Popped(q, caps.staging) case None => [] case Some(id) => [id])
    case Take(i) => if i < |q.staging| then [q.staging[i]] else []
    case Drop(id) => if id in Line(q) then [id] else []
  }

  function Run(q: QueueState, ops: seq<Op>, caps: Caps): QueueState
    decreases ops
  {
    if ops == [] then q else Run(Apply(q, ops[0], caps), ops[1..], caps)
  }

  function AllEntering(q: QueueState, ops: seq<Op>, caps: Caps): seq<SlotId>
    decreases ops
  {
    if ops == [] then [] else Entering(q, ops[0], caps) + AllEntering(Apply(q, ops[0], caps), ops[1..], caps)
  }

  function AllHandedOut(q: QueueState, ops: seq<Op>, caps: Caps): seq<SlotId>
    decreases ops
  {
    if ops == [] then [] else HandedOut(q, ops[0], caps) + AllHandedOut(Apply(q, ops[0], caps), ops[1..], caps)
  }

  // ---- one line ----

  /** `pop_next` takes the head of the one line and leaves its tail; it comes back empty-handed only when
      both tiers are empty. */
  lemma PopTakesHeadOfLine(q: QueueState, stagingMax: int)
    requires stagingMax >= 1
    ensures Popped(q, stagingMax) == if Line(q) == [] then None else Some(Line(q)[0])
    ensures Line(AfterPop(q, stagingMax)) == if Line(q) == [] then [] else Line(q)[1..]
  {
    var n := PromotedCount(q, stagingMax);
    var s := q.staging + q.buf[..n];
    assert s + q.buf[n..] == Line(q);
    if s != [] {
      assert s[1..] + q.buf[n..] == (s + q.buf[n..])[1..];
    } else {
      assert q.buf == [];
    }
  }

  /** How often `x` occurs. */
  function Count(ids: seq<SlotId>, x: SlotId): nat {
    if ids == [] then 0 else (if ids[0] == x then 1 else 0) + Count(ids[1..], x)
  }

  lemma {:induction false} CountAppend(a: seq<SlotId>, b: seq<SlotId>, x: SlotId)
    ensures Count(a + b, x) == Count(a, x) + Count(b, x)
  {
    if a == [] {
      assert a + b == b;
    } else {
      assert (a + b)[1..] == a[1..] + b;
      CountAppend(a[1..], b, x);
    }
  }

  lemma {:induction false} MinusCount(ids: seq<SlotId>, id: SlotId, x: SlotId)
    ensures Count(Minus(ids, id), x) == Count(ids, x) - if id in ids && x == id then 1 else 0
  {
    if ids != [] && ids[0] != id {
      MinusCount(ids[1..], id, x);
    }
  }

  lemma SplitCount(ids: seq<SlotId>, i: nat, x: SlotId)
    requires i < |ids|
    ensures Count(ids, x) == Count(Without(ids, i), x) + Count([ids[i]], x)
  {
    assert ids == ids[..i] + ([ids[i]] + ids[i + 1..]);
    CountAppend(ids[..i], [ids[i]] + ids[i + 1..], x);
    CountAppend([ids[i]], ids[i + 1..], x);
    CountAppend(ids[..i], ids[i + 1..], x);
  }

  lemma PopConserves(q: QueueState, stagingMax: int, x: SlotId)
    requires stagingMax >= 1
    ensures Count(Line(AfterPop(q, stagingMax)), x) + Count(HandedOut(q, Pop, Caps(stagingMax, 0)), x) ==
              Count(Line(q), x)
  {
    PopTakesHeadOfLine(q, stagingMax);
    if Line(q) != [] {
      SplitCount(Line(q), 0, x);
      assert Without(Line(q), 0) == Line(q)[1..];
    }
  }

  lemma DropConserves(q: QueueState, id: SlotId, x: SlotId)
    ensures Count(Line(AfterRemove(q, id)), x) + (if id in Line(q) && x == id then 1 else 0) == Count(Line(q), x)
  {
    CountAppend(q.staging, q.buf, x);
    CountAppend(Minus(q.staging, id), q.buf, x);
    CountAppend(q.staging, Minus(q.buf, id), x);
    MinusCount(q.staging, id, x);
    MinusCount(q.buf, id, x);
  }

  lemma LetInConserves(q: QueueState, op: Op, caps: Caps, x: SlotId)
    requires op.Fresh? || op.AtHead?
    ensures Count(Line(Apply(q, op, caps)), x) == Count(Line(q), x) + Count(Entering(q, op, caps), x)
  {
    CountAppend(q.staging, q.buf, x);
    CountAppend(q.staging + [op.id], q.buf, x);
    CountAppend(q.staging, q.buf + [op.id], x);
    CountAppend([op.id] + q.staging, q.buf, x);
    CountAppend(q.staging, [op.id], x);
    CountAppend(q.buf, [op.id], x);
    CountAppend([op.id], q.staging, x);
  }

  lemma ApplyConserves(q: QueueState, op: Op, caps: Caps, x: SlotId)
    requires caps.staging >= 1
    ensures Count(Line(Apply(q, op, caps)), x) + Count(HandedOut(q, op, caps), x)
         == Count(Line(q), x) + Count(Entering(q, op, caps), x)
  {
    match op
    case Fresh(_) | AtHead(_) => LetInConserves(q, op, caps, x);
    case Pop => PopConserves(q, caps.staging, x);
    case Take(i) =>
      if i < |q.staging| {
        SplitCount(Line(q), i, x);
        assert Without(Line(q), i) == Without(q.staging, i) + q.buf;
      }
    case Drop(id) => DropConserves(q, id, x);
  }

  /** Over any run nothing is lost and nothing is duplicated: each slot is counted as often among those
      still queued and those handed out as among those queued at first and those let in. */
  lemma {:induction false} RunConserves(q: QueueState, ops: seq<Op>, caps: Caps, x: SlotId)
    requires caps.staging >= 1
    ensures Count(Line(Run(q, ops, caps)), x) + Count(AllHandedOut(q, ops, caps), x)
         == Count(Line(q), x) + Count(AllEntering(q, ops, caps), x)
    decreases ops
  {
    if ops != [] {
      var next := Apply(q, ops[0], caps);
      ApplyConserves(q, ops[0], caps, x);
      RunConserves(next, ops[1..], caps, x);
      CountAppend(HandedOut(q, ops[0], caps), AllHandedOut(next, ops[1..], caps), x);
      CountAppend(Entering(q, ops[0], caps), AllEntering(next, ops[1..], caps), x);
    }
  }

  // ---- first in, first out ----

  /** No room is left in front of the buffer. */
  predicate Packed(q: QueueState, caps: Caps) {
    q.buf == [] || |q.staging| >= caps.staging
  }

  lemma InOrderStep(q: QueueState, op: Op, caps: Caps)
    requires caps.staging >= 1 && Packed(q, caps) && (op.Fresh? || op.Pop?)
    ensures HandedOut(q, op, caps) + Line(Apply(q, op, caps)) == Line(q) + Entering(q, op, caps)
    ensures Packed(Apply(q, op, caps), caps)
  {
    if op.Pop? {
      PopTakesHeadOfLine(q, caps.staging);
    }
  }

  lemma Splice(out1: seq<SlotId>, out2: seq<SlotId>, line0: seq<SlotId>, line1: seq<SlotId>, line2: seq<SlotId>,
               in1: seq<SlotId>, in2: seq<SlotId>)
    requires out1 + line1 == line0 + in1 && out2 + line2 == line1 + in2
    ensures (out1 + out2) + line2 == line0 + (in1 + in2)
  {
    calc {
      (out1 + out2) + line2;
      out1 + (out2 + line2);
      (out1 + line1) + in2;
      line0 + (in1 + in2);
    }
  }

  /** In a run of `enqueue` and `pop_next` alone, from a queue with no room in front of its buffer, slots
      leave in exactly the order in which they stood and arrived. */
  lemma {:induction false} FirstInFirstOut(q: QueueState, ops: seq<Op>, caps: Caps)
    requires caps.staging >= 1 && Packed(q, caps)
    requires forall op :: op in ops ==> op.Fresh? || op.Pop?
    ensures AllHandedOut(q, ops, caps) + Line(Run(q, ops, caps)) == Line(q) + AllEntering(q, ops, caps)
    ensures Packed(Run(q, ops, caps), caps)
    decreases ops
  {
    if ops != [] {
      var next, rest := Apply(q, ops[0], caps), ops[1..];
      assert ops[0] in ops;
      InOrderStep(q, ops[0], caps);
      FirstInFirstOut(next, rest, caps);
      Splice(HandedOut(q, ops[0], caps), AllHandedOut(next, rest, caps), Line(q), Line(next),
             Line(Run(next, rest, caps)), Entering(q, ops[0], caps), AllEntering(next, rest, caps));
    }
  }

  // ---- overtaking ----

  /** How many fresh enqueues of a run are put into staging, ahead of `x`, while `x` waits in the buffer. */
  function Overtakes(q: QueueState, ops: seq<Op>, caps: Caps, x: SlotId): nat
    decreases ops
  {
    if ops == [] || x !in q.buf then 0
    else
      var here := if ops[0].Fresh? && Admit(q, caps.staging, caps.acceptance) == Staged then 1 else 0;
      here + Overtakes(Apply(q, ops[0], caps), ops[1..], caps, x)
  }

  /** How many removals from staging other than `pop_next` are made while `x` waits in the buffer. */
  function Holes(q: QueueState, ops: seq<Op>, caps: Caps, x: SlotId): nat
    decreases ops
  {
    if ops == [] || x !in q.buf then 0
    else
      var here := if (ops[0].Take? && ops[0].at < |q.staging|) || (ops[0].Drop?
          && ops[0].id in q.staging) then 1 else 0;
      here + Holes(Apply(q, ops[0], caps), ops[1..], caps, x)
  }

  /** The room in front of the buffer. */
  function Room(q: QueueState, caps: Caps): nat {
    if |q.staging| < caps.staging then caps.staging - |q.staging| else 0
  }

  lemma {:induction false} MinusLength(ids: seq<SlotId>, id: SlotId)
    ensures |Minus(ids, id)| == if id in ids then |ids| - 1 else |ids|
  {
    if ids != [] && ids[0] != id {
      MinusLength(ids[1..], id);
    }
  }

  /** One step makes room in front of a slot that stays buffered only by such a removal. */
  lemma RoomAfter(q: QueueState, op: Op, caps: Caps, x: SlotId)
    requires caps.staging >= 1 && x in q.buf && x in Apply(q, op, caps).buf
    ensures Room(Apply(q, op, caps), caps) + Overtakes(q, [op], caps, x) <= Room(q, caps) + Holes(q, [op], caps, x)
  {
    var next := Apply(q, op, caps);
    assert [op][1..] == [];
    match op
    case Pop => assert next.buf == q.buf[PromotedCount(q, caps.staging)..];
    case Drop(id) => MinusLength(q.staging, id);
    case _ =>
  }

  lemma {:induction false} OvertakingBoundedByRoom(q: QueueState, ops: seq<Op>, caps: Caps, x: SlotId)
    requires caps.staging >= 1
    ensures Overtakes(q, ops, caps, x) <= Holes(q, ops, caps, x) + Room(q, caps)
    decreases ops
  {
    if ops != [] && x in q.buf {
      var next := Apply(q, ops[0], caps);
      assert [ops[0]][1..] == [];
      OvertakingBoundedByRoom(next, ops[1..], caps, x);
      if x in next.buf {
        RoomAfter(q, ops[0], caps, x);
      }
    }
  }

  /** A slot is buffered only when staging is full, so from then on it is overtaken by at most as many
      fresh enqueues as `pop_matched_thread` and `remove` take out of staging while it waits. */
  lemma BoundedOvertaking(q: QueueState, x: SlotId, ops: seq<Op>, caps: Caps)
    requires caps.staging >= 1
    requires Admit(q, caps.staging, caps.acceptance) == Buffered
    ensures var q' := AfterEnqueue(q, x, Buffered);
            Overtakes(q', ops, caps, x) <= Holes(q', ops, caps, x)
  {
    OvertakingBoundedByRoom(AfterEnqueue(q, x, Buffered), ops, caps, x);
  }

  /** The bound is reached: one `pop_matched_thread` lets the next enqueue overtake the buffered slot. */
  lemma OvertakingHappens()
    ensures var q, ops, caps := QueueState([0], [1], false), [Take(0), Fresh(2)], Caps(1, 5);
            Overtakes(q, ops, caps, 1) == 1 && Holes(q, ops, caps, 1) == 1
            && Line(Run(q, ops, caps)) == [2, 1]
  {
    var q0, ops, caps := QueueState([0], [1], false), [Take(0), Fresh(2)], Caps(1, 5);
    var q1 := Apply(q0, ops[0], caps);
    var q2 := Apply(q1, ops[1], caps);
    assert ops[1..] == [Fresh(2)] && ops[1..][1..] == [];
    assert q1 == QueueState([], [1], false) && q2 == QueueState([2], [1], false);
    assert Overtakes(q2, [], caps, 1) == 0 && Holes(q2, [], caps, 1) == 0 && Run(q2, [], caps) == q2;
    assert Overtakes(q1, ops[1..], caps, 1) == 1 && Holes(q1, ops[1..], caps, 1) == 0;
  }

  // ---- capacity ----

  function HeadInserts(ops: seq<Op>): nat {
    if ops == [] then 0 else (if ops[0].AtHead? then 1 else 0) + HeadInserts(ops[1..])
  }

  function Max(a: int, b: int): int {
    if a < b then b else a
  }

  /** Both tiers keep to their caps, head inserts excepted. */
  lemma {:induction false} TiersStayWithinCaps(q: QueueState, ops: seq<Op>, caps: Caps)
    requires caps.staging >= 1
    ensures |Run(q, ops, caps).buf| <= Max(|q.buf|, caps.acceptance)
    ensures |Run(q, ops, caps).staging| <= Max(|q.staging|, caps.staging) + HeadInserts(ops)
    decreases ops
  {
    if ops != [] {
      if ops[0].Drop? {
        MinusLength(q.staging, ops[0].id);
        MinusLength(q.buf, ops[0].id);
      }
      TiersStayWithinCaps(Apply(q, ops[0], caps), ops[1..], caps);
    }
  }
}
