/** The queue inside a scheduler run: every step is at most one queue operation, so what QueueRuns proves of lists of
    operations holds of runs; here, how far requests can overtake a buffered one. */
module SchedulerOvertaking {
  import opened Wrappers
  import opened Slots
  import opened Queue
  import opened QueueRuns
  import opened Timers
  import opened Scheduler
  import opened SchedulerInvariant
  import opened SchedulerFrames
  import opened SchedulerTheorems
  import opened SchedulerFutures

  function CapsOf(c: Config): Caps {
    Caps(c.stagingMax, c.acceptanceMax)
  }

  /** The queue operation of a step; the closing of the queue is not one of them. */
  function QueueOp(s: Sched, c: Config, e: Event): Option<Op> {
    match e
    case Worker(_) =>
      if s.pc.Head? && !s.stop then Some(Pop)
      else if s.pc.GraceTop? && s.pc.id in s.book.slots && s.now < s.pc.deadline && !s.stop then
        var slot := s.book.slots[s.pc.id];
        match FirstMatch(s.book.q.staging, s.book.slots, slot.threadId, slot.modelTag)
        case None => None
        case Some(at) => Some(Take(at))
      else None
    case Request(id, threadId, modelTag, _, _) =>
      if s.stop then None
      else if GraceMatches(s.grace, c.graceSeconds, s.now, threadId, modelTag) then Some(AtHead(id))
      else Some(Fresh(id))
    case _ => None
  }

  function AfterOp(q: QueueState, op: Option<Op>, caps: Caps): QueueState {
    match op
    case None => q
    case Some(o) => Apply(q, o, caps)
  }

  // ---- steps are queue operations ----

  lemma HeadOp(s: Sched, c: Config, i: Inputs)
    requires s.pc.Head?
    ensures FromHead(s, c, i).book.q == AfterOp(s.book.q, QueueOp(s, c, Worker(i)), CapsOf(c))
  {
    EveryWayOut();
    hide Unwind, Popped, AfterPop, Promoted, AllStaged, SlotsKept, OutsideKept;
  }

  lemma GraceTopOp(s: Sched, c: Config, i: Inputs)
    requires s.pc.GraceTop?
    ensures FromGraceTop(s, c, s.pc.id, s.pc.deadline).book.q == AfterOp(s.book.q, QueueOp(s, c, Worker(i)), CapsOf(c))
  {
    EveryWayOut();
    hide BeginTeardown, FirstMatch, SlotsKept, OutsideKept, IdleWindow;
  }

  /** Writes to slots and rows leave the queue alone. */
  lemma QueueStays()
    ensures forall b, id, to :: Advance(b, id, to).q == b.q
    ensures forall b, id :: HandOff(b, id).q == b.q
    ensures forall b, id, pid :: SetPid(b, id, pid).q == b.q
    ensures forall b, id, v :: Settle(b, id, v).q == b.q
    ensures forall b, id, reason, now :: Mark(b, id, reason, now).q == b.q
    ensures forall b, id, to :: Move(b, id, to).q == b.q
  {
  }

  lemma LoopOp(s: Sched, c: Config, i: Inputs)
    requires InLoop(s.pc) && !s.pc.GraceTop?
    ensures Resume(s, c, i).book.q == s.book.q
  {
    QueueStays();
    hide Advance, Settle, Mark, Move;
  }

  lemma EndOp(s: Sched, c: Config, i: Inputs)
    requires EndsSlot(s.pc)
    ensures Resume(s, c, i).book.q == s.book.q
  {
    EveryWayOut();
    if s.pc.FcTerm? {
      FreezeKept(s.book, s.pc.id, s.now);
    }
    hide Unwind, Leave, ForceCold, AfterTeardown, Freeze, SlotsKept, OutsideKept;
  }

  lemma LoadOp(s: Sched, c: Config, i: Inputs)
    requires !s.pc.Head? && !InLoop(s.pc) && !EndsSlot(s.pc)
    ensures Resume(s, c, i).book.q == s.book.q
  {
    EveryWayOut();
    QueueStays();
    hide Unwind, BeginTeardown, SlotsKept, OutsideKept, Advance, HandOff, SetPid, Settle, Mark, Move;
  }

  lemma CancelOp(s: Sched)
    ensures Cancel(s).book.q == s.book.q
  {
    EveryWayOut();
    hide Unwind, SlotsKept, OutsideKept;
  }

  lemma SubmitOp(s: Sched, c: Config, e: Event)
    requires e.Request?
    ensures Submit(s, c, e.id, e.threadId, e.modelTag, e.keepAlive, e.wait).book.q
         == AfterOp(s.book.q, QueueOp(s, c, e), CapsOf(c))
  {
  }

  /** Every step but the closing is at most one operation of the queue. */
  lemma StepOp(s: Sched, c: Config, e: Event)
    requires e != ShutdownCloses
    ensures Step(s, c, e).book.q == AfterOp(s.book.q, QueueOp(s, c, e), CapsOf(c))
  {
    match e
    case Worker(i) =>
      if s.pc.Head? {
        HeadOp(s, c, i);
      } else if s.pc.GraceTop? {
        GraceTopOp(s, c, i);
      } else if InLoop(s.pc) {
        LoopOp(s, c, i);
      } else if EndsSlot(s.pc) {
        EndOp(s, c, i);
      } else {
        LoadOp(s, c, i);
      }
      hide FromHead, FromGraceTop;
    case ShutdownAsked => CancelOp(s);
    case Request(_, _, _, _, _) => SubmitOp(s, c, e);
    case _ =>
    hide Cancel, Submit, AfterOp;
  }

  // ---- counting ----

  /** A request that is put into staging although `x` waits in the buffer. */
  predicate Passes(s: Sched, c: Config, e: Event, x: SlotId) {
    && x in s.book.q.buf && QueueOp(s, c, e).Some? && QueueOp(s, c, e).value.Fresh?
    && Admit(s.book.q, c.stagingMax, c.acceptanceMax) == Staged
  }

  /** A follow-up that is promoted out of staging while `x` waits in the buffer. */
  predicate Promotes(s: Sched, c: Config, e: Event, x: SlotId) {
    x in s.book.q.buf && QueueOp(s, c, e).Some? && QueueOp(s, c, e).value.Take?
  }

  function Passed(c: Config, events: seq<Event>, x: SlotId, j: nat, k: nat): nat
    requires j <= k <= |events|
    decreases k
  {
    if k == j then 0
    else Passed(c, events, x, j, k - 1) + if Passes(StateAt(c, events, k - 1), c, events[k - 1], x) then 1 else 0
  }

  function Promotions(c: Config, events: seq<Event>, x: SlotId, j: nat, k: nat): nat
    requires j <= k <= |events|
    decreases k
  {
    if k == j then 0
    else Promotions(c, events, x, j, k - 1) + if Promotes(StateAt(c, events, k - 1), c, events[k - 1], x) then 1 else 0
  }

  /** One step: the room in front of the buffer grows only by a promotion and shrinks by what passes. */
  lemma RoomStep(s: Sched, c: Config, e: Event, x: SlotId)
    requires ConfigOk(c) && e != ShutdownCloses && x in s.book.q.buf && x in Step(s, c, e).book.q.buf
    ensures Room(Step(s, c, e).book.q, CapsOf(c)) + (if Passes(s, c, e, x) then 1 else 0)
         <= Room(s.book.q, CapsOf(c)) + (if Promotes(s, c, e, x) then 1 else 0)
  {
    var q, op := s.book.q, QueueOp(s, c, e);
    StepOp(s, c, e);
    hide Step, QueueOp, Room;
    if op.Some? {
      RoomAfter(q, op.value, CapsOf(c), x);
      assert [op.value][1..] == [];
      OneOp(q, op.value, CapsOf(c), x);
    }
  }

  lemma OneOp(q: QueueState, op: Op, caps: Caps, x: SlotId)
    requires x in q.buf && !op.Drop?
    ensures Overtakes(q, [op], caps, x) == if op.Fresh?
              && Admit(q, caps.staging, caps.acceptance) == Staged then 1 else 0
    ensures Holes(q, [op], caps, x) <= if op.Take? then 1 else 0
  {
    assert [op][1..] == [];
  }

  /** A slot that has left the buffer does not come back. */
  lemma NotBuffered(s: Sched, c: Config, e: Event, x: SlotId)
    requires Allowed(s, e) && x in s.book.slots && x !in s.book.q.buf
    ensures x !in Step(s, c, e).book.q.buf
  {
    if e != ShutdownCloses {
      StepOp(s, c, e);
      OpsBuffer(s.book.q, QueueOp(s, c, e), CapsOf(c), x);
      OpsAreFresh(s, c, e, x);
      hide Step, QueueOp, AfterOp;
    }
  }

  lemma OpsAreFresh(s: Sched, c: Config, e: Event, x: SlotId)
    requires Allowed(s, e) && x in s.book.slots
    ensures QueueOp(s, c, e) != Some(Fresh(x)) && (QueueOp(s, c, e).Some? ==> !QueueOp(s, c, e).value.Drop?)
  {
  }

  lemma OpsBuffer(q: QueueState, op: Option<Op>, caps: Caps, x: SlotId)
    requires x !in q.buf && op != Some(Fresh(x)) && (op.Some? ==> !op.value.Drop?)
    ensures x !in AfterOp(q, op, caps).buf
  {
  }

  lemma KnownStays(c: Config, events: seq<Event>, k: nat, x: SlotId)
    requires RunOf(c, events) && k <= |events| && x in StateAt(c, events, k).book.q.buf
    ensures x in StateAt(c, events, k).book.slots
  {
    ReachedOk(c, events, k);
    var s := StateAt(c, events, k);
    assert PlaceOk(s.book, Hand(s.pc), x);
    hide Inv, LegalHistory;
  }

  /** As long as `x` is buffered, what passes it is paid for by promotions and by the room there was. */
  lemma {:induction false} PassedReached(c: Config, events: seq<Event>, x: SlotId, j: nat, k: nat)
    requires RunOf(c, events) && j <= k <= |events| && x in StateAt(c, events, j).book.slots
    ensures var room, caps := Room(StateAt(c, events, j).book.q, CapsOf(c)), CapsOf(c);
            && x in StateAt(c, events, k).book.slots
            && Passed(c, events, x, j, k) <= Promotions(c, events, x, j, k) + room
            && (x in StateAt(c, events, k).book.q.buf ==>
                  Passed(c, events, x, j, k) + Room(StateAt(c, events, k).book.q, caps)
                  <= Promotions(c, events, x, j, k) + room)
    decreases k
  {
    if j < k {
      PassedReached(c, events, x, j, k - 1);
      ReachedOk(c, events, k - 1);
      FuturesAreFinal(c, events, k - 1, k, x);
      var s, e := StateAt(c, events, k - 1), events[k - 1];
      if x !in s.book.q.buf {
        NotBuffered(s, c, e, x);
      } else if e != ShutdownCloses {
        if x in Step(s, c, e).book.q.buf {
          RoomStep(s, c, e, x);
        } else {
          PassesKeeps(s, c, e, x);
        }
      }
      hide Inv, Allowed, Step, Room, Kept;
    }
  }

  /** What passes `x` does not move it. */
  lemma PassesKeeps(s: Sched, c: Config, e: Event, x: SlotId)
    requires e != ShutdownCloses && x in s.book.q.buf && x !in Step(s, c, e).book.q.buf
    ensures !Passes(s, c, e, x)
  {
    StepOp(s, c, e);
    hide Step, QueueOp;
  }

  /** In every run: from the request that put it into the buffer on, a slot is passed by at most as many later
      requests as follow-ups are promoted out of staging while it waits. */
  lemma BufferedIsOvertakenBoundedly(c: Config, events: seq<Event>, j: nat, k: nat)
    requires RunOf(c, events) && j < k <= |events| && events[j].Request?
    requires QueueOp(StateAt(c, events, j), c, events[j]) == Some(Fresh(events[j].id))
    requires Admit(StateAt(c, events, j).book.q, c.stagingMax, c.acceptanceMax) == Buffered
    ensures Passed(c, events, events[j].id, j + 1, k) <= Promotions(c, events, events[j].id, j + 1, k)
  {
    var s, x := StateAt(c, events, j), events[j].id;
    ReachedOk(c, events, j);
    StepOp(s, c, events[j]);
    assert StateAt(c, events, j + 1).book.q == AfterEnqueue(s.book.q, x, Buffered);
    assert Room(AfterEnqueue(s.book.q, x, Buffered), CapsOf(c)) == 0;
    KnownStays(c, events, j + 1, x);
    PassedReached(c, events, x, j + 1, k);
    hide Inv, Allowed, Step, QueueOp, Room;
  }
}
