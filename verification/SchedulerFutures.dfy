/** A future is settled once, and answered only to a slot that was served. */
module SchedulerFutures {
  import opened Wrappers
  import opened Fsm
  import opened Slots
  import opened Queue
  import opened QueueRuns
  import opened StateDb
  import opened Timers
  import opened Scheduler
  import opened SchedulerInvariant
  import opened SchedulerQueue
  import opened SchedulerFrames
  import opened SchedulerTheorems

  lemma {:induction false} AllStagedKept(slots: map<SlotId, Slot>, ids: seq<SlotId>, x: SlotId)
    requires x in slots
    ensures Kept(slots[x], AllStaged(slots, ids)[x])
    decreases ids
  {
    if ids != [] {
      AllStagedKept(slots, ids[..|ids| - 1], x);
    }
  }

  /** One slot is kept. */
  predicate KeptAt(b: Book, b': Book, x: SlotId) {
    (x in b.slots <==> x in b'.slots) && (x in b.slots ==> Kept(b.slots[x], b'.slots[x]))
  }

  lemma PopBookKept(b: Book, c: Config, x: SlotId)
    ensures KeptAt(b, PopBook(b, c), x)
  {
    if x in b.slots {
      AllStagedKept(b.slots, Promoted(b.q, c.stagingMax), x);
    }
  }

  lemma HeadKept(s: Sched, c: Config, i: Inputs, x: SlotId)
    requires s.pc.Head?
    ensures KeptAt(s.book, FromHead(s, c, i).book, x)
  {
    var b, popped := PopBook(s.book, c), Popped(s.book.q, c.stagingMax);
    PopBookKept(s.book, c, x);
    if !s.stop && popped.Some? {
      StartKept(s.(book := b, activeSlot := Some(popped.value), latest := None), popped.value, i, x);
    }
    hide StartSlot, PopBook, Popped;
  }

  lemma StartKept(s: Sched, id: SlotId, i: Inputs, x: SlotId)
    ensures KeptAt(s.book, StartSlot(s, id, i).book, x)
  {
    WritesKeep(x);
    WaysOutKeep(x);
    hide KeptAt, Unwind, Advance;
  }

  /** Every single write keeps a slot, and keeping composes. */
  lemma WritesKeep(x: SlotId)
    ensures forall b, id, to :: KeptAt(b, Move(b, id, to), x)
    ensures forall b, id, v :: v != Answered ==> KeptAt(b, Settle(b, id, v), x)
    ensures forall b, id :: At(b, id, ACTIVE) ==> KeptAt(b, Settle(b, id, Answered), x)
    ensures forall b, id :: KeptAt(b, HandOff(b, id), x)
    ensures forall b, id, pid :: KeptAt(b, SetPid(b, id, pid), x)
    ensures forall b, id, reason, now :: KeptAt(b, Mark(b, id, reason, now), x)
    ensures forall b, id, to :: KeptAt(b, Advance(b, id, to), x)
    ensures forall b, b1, b2 {:trigger KeptAt(b, b1, x), KeptAt(b1, b2, x)} ::
              KeptAt(b, b1, x) && KeptAt(b1, b2, x) ==> KeptAt(b, b2, x)
    ensures forall b :: KeptAt(b, b, x)
  {
  }

  lemma WaysOutKeep(x: SlotId)
    ensures forall s: Sched, how :: KeptAt(s.book, Unwind(s, how).book, x)
    ensures forall s: Sched, how :: KeptAt(s.book, Leave(s, how).book, x)
    ensures forall s: Sched, id :: KeptAt(s.book, ForceCold(s, id).book, x)
    ensures forall s: Sched, id, why :: KeptAt(s.book, AfterTeardown(s, id, why).book, x)
    ensures forall s: Sched, id, why :: KeptAt(s.book, BeginTeardown(s, id, why).book, x)
  {
    EveryWayOut();
    hide Unwind, Leave, ForceCold, AfterTeardown, BeginTeardown, OutsideKept;
  }

  lemma GraceTopKept(s: Sched, c: Config, x: SlotId)
    requires s.pc.GraceTop?
    ensures KeptAt(s.book, FromGraceTop(s, c, s.pc.id, s.pc.deadline).book, x)
  {
    WritesKeep(x);
    WaysOutKeep(x);
    if s.pc.id in s.book.slots {
      var slot := s.book.slots[s.pc.id];
      var found := FirstMatch(s.book.q.staging, s.book.slots, slot.threadId, slot.modelTag);
      if found.Some? {
        TakenKept(s, found.value, x);
      }
    }
    hide KeptAt, BeginTeardown, FirstMatch, Move, Advance, SetPid;
  }

  lemma TakenKept(s: Sched, at: nat, x: SlotId)
    requires at < |s.book.q.staging|
    ensures KeptAt(s.book, s.book.(q := s.book.q.(staging := Without(s.book.q.staging, at)),
                                   slots := Flagged(s.book.slots, Some(s.book.q.staging[at]))), x)
  {
  }

  lemma LoopKept(s: Sched, c: Config, i: Inputs, x: SlotId)
    requires InLoop(s.pc) && !s.pc.GraceTop? && (s.pc.MatchServe? ==> At(s.book, s.pc.m, ACTIVE))
    ensures KeptAt(s.book, Resume(s, c, i).book, x)
  {
    WritesKeep(x);
    if s.pc.MatchGrace? {
      ExtendedKept(s.book, s.pc.m, Restarted(s.grace, c.maxExtensions, s.now).extensions, x);
    }
    hide KeptAt, Move, Advance, Settle, Mark;
  }

  lemma ExtendedKept(b: Book, m: SlotId, n: nat, x: SlotId)
    ensures m in b.slots ==> KeptAt(b, b.(slots := b.slots[m := b.slots[m].(extensions := n)]), x)
  {
  }

  lemma TeardownKept(s: Sched, c: Config, i: Inputs, x: SlotId)
    requires s.pc.TdTerm? || s.pc.TdVerify? || s.pc.TdAudit?
    ensures KeptAt(s.book, Resume(s, c, i).book, x)
  {
    WritesKeep(x);
    WaysOutKeep(x);
    hide KeptAt, Unwind, ForceCold, AfterTeardown, Mark;
  }

  lemma FreezeKeptAt(b: Book, id: SlotId, now: int, x: SlotId)
    ensures KeptAt(b, Freeze(b, id, now), x)
  {
    FreezeKept(b, id, now);
    hide Freeze, OutsideKept, Kept;
  }

  lemma EndKept(s: Sched, c: Config, i: Inputs, x: SlotId)
    requires EndsSlot(s.pc)
    ensures KeptAt(s.book, Resume(s, c, i).book, x)
  {
    if s.pc.TdTerm? || s.pc.TdVerify? || s.pc.TdAudit? {
      TeardownKept(s, c, i, x);
      hide Resume;
    } else {
      WritesKeep(x);
      WaysOutKeep(x);
      if s.pc.FcTerm? {
        FreezeKeptAt(s.book, s.pc.id, s.now, x);
      }
    }
    hide KeptAt, Unwind, Leave, Freeze, Mark;
  }

  lemma LoadKept(s: Sched, c: Config, i: Inputs, x: SlotId)
    requires !s.pc.Head? && !InLoop(s.pc) && !EndsSlot(s.pc) && (s.pc.Serve? ==> At(s.book, s.pc.id, ACTIVE))
    ensures KeptAt(s.book, Resume(s, c, i).book, x)
  {
    WritesKeep(x);
    WaysOutKeep(x);
    hide KeptAt, Unwind, Leave, ForceCold, AfterTeardown, BeginTeardown, Move, HandOff, Advance, Settle, SetPid, Mark;
  }

  lemma CancelKept(s: Sched, x: SlotId)
    ensures KeptAt(s.book, Cancel(s).book, x)
  {
    WritesKeep(x);
    WaysOutKeep(x);
    hide KeptAt, Unwind, Move, HandOff, Settle;
  }

  /** Who is being answered is active. */
  lemma ServedIsActive(s: Sched)
    requires Inv(s)
    ensures s.pc.Serve? ==> At(s.book, s.pc.id, ACTIVE)
    ensures s.pc.MatchServe? ==> At(s.book, s.pc.m, ACTIVE)
  {
    hide PlaceOk, Distinct, SideOk;
  }

  lemma StepKept(s: Sched, c: Config, e: Event, x: SlotId)
    requires Inv(s) && Allowed(s, e) && (e.Request? ==> x != e.id)
    ensures KeptAt(s.book, Step(s, c, e).book, x)
  {
    ServedIsActive(s);
    hide Inv;
    match e
    case Worker(i) =>
      if s.pc.Head? {
        HeadKept(s, c, i, x);
      } else if s.pc.GraceTop? {
        GraceTopKept(s, c, x);
      } else if InLoop(s.pc) {
        LoopKept(s, c, i, x);
      } else if EndsSlot(s.pc) {
        EndKept(s, c, i, x);
      } else {
        LoadKept(s, c, i, x);
      }
    case ShutdownAsked => CancelKept(s, x);
    case Request(id, threadId, modelTag, keepAlive, wait) => SubmitKept(s, c, e, x);
    case ShutdownCloses => CloseKept(s, x);
    case _ => hide Resume, Cancel, Submit, Close;
  }

  lemma SubmitKept(s: Sched, c: Config, e: Event, x: SlotId)
    requires e.Request? && e.id !in s.book.slots && x != e.id
    ensures KeptAt(s.book, Submit(s, c, e.id, e.threadId, e.modelTag, e.keepAlive, e.wait).book, x)
  {
  }

  lemma CloseKept(s: Sched, x: SlotId)
    ensures KeptAt(s.book, Close(s).book, x)
  {
  }

  /** A future that is done keeps its verdict for the rest of the run, and a slot keeps its labels: with
      the settlement theorems, each future is settled exactly once. */
  lemma {:induction false} FuturesAreFinal(c: Config, events: seq<Event>, j: nat, k: nat, x: SlotId)
    requires RunOf(c, events) && j <= k <= |events| && x in StateAt(c, events, j).book.slots
    ensures x in StateAt(c, events, k).book.slots
    ensures Kept(StateAt(c, events, j).book.slots[x], StateAt(c, events, k).book.slots[x])
    decreases k
  {
    if j < k {
      FuturesAreFinal(c, events, j, k - 1, x);
      ReachedOk(c, events, k - 1);
      StepKept(StateAt(c, events, k - 1), c, events[k - 1], x);
      hide Step, Allowed, Inv;
    }
  }

  /** No caller is answered whose slot was never active. */
  lemma {:induction false} AnsweredWasActive(c: Config, events: seq<Event>, k: nat, x: SlotId)
    requires RunOf(c, events) && k <= |events|
    requires x in StateAt(c, events, k).book.slots && StateAt(c, events, k).book.slots[x].future == Done(Answered)
    ensures WasActive(StateAt(c, events, k).book.slots[x])
    decreases k
  {
    hide Allowed, Inv;
    if k > 0 {
      ReachedOk(c, events, k - 1);
      var s, e := StateAt(c, events, k - 1), events[k - 1];
      if e.Request? && e.id == x {
        SubmittedUnanswered(s, c, e);
      } else {
        StepKept(s, c, e, x);
        hide Step;
        if s.book.slots[x].future == Done(Answered) {
          AnsweredWasActive(c, events, k - 1, x);
        }
      }
    }
  }

  lemma SubmittedUnanswered(s: Sched, c: Config, e: Event)
    requires e.Request? && e.id !in s.book.slots
    ensures var b := Submit(s, c, e.id, e.threadId, e.modelTag, e.keepAlive, e.wait).book;
            e.id in b.slots ==> b.slots[e.id].future != Done(Answered)
  {
  }
}
