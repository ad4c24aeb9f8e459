/** The row that a thread is about to write: whose it is, and that only the worker hands rows to threads. */
module SchedulerWriting {
  import opened Wrappers
  import opened Fsm
  import opened Slots
  import opened Queue
  import opened StateDb
  import opened Timers
  import opened Scheduler
  import opened SchedulerInvariant
  import opened SchedulerFrames

  lemma WritingInHand(s: Sched)
    requires WritingOk(s)
    ensures s.book.writing.Some? ==> s.book.writing.value in Hand(s.pc)
  {
  }

  /** Nothing but an audit hands a row to a thread. */
  lemma WritingStays()
    ensures forall b, id, to :: Move(b, id, to).writing == b.writing
    ensures forall b, id, v :: Settle(b, id, v).writing == b.writing
    ensures forall b, id, reason, now :: Mark(b, id, reason, now).writing == b.writing
    ensures forall b, id, pid :: SetPid(b, id, pid).writing == b.writing
    ensures forall b, id: SlotId, to :: Advance(b, id, to).writing == Some(id)
    ensures forall b, id, now :: Freeze(b, id, now).writing == b.writing
  {
    forall b, id, now ensures Freeze(b, id, now).writing == b.writing {
      FreezeKept(b, id, now);
      hide Freeze;
    }
    hide Freeze;
  }

  /** A worker's step hands over at most the row it then waits for. */
  predicate HandsOver(s: Sched, s': Sched) {
    s'.book.writing == s.book.writing || (s'.book.writing.Some? && s'.book.writing == Awaited(s'.pc))
  }

  lemma LoadHands(s: Sched, c: Config, i: Inputs)
    requires !s.pc.Head? && !InLoop(s.pc) && !EndsSlot(s.pc)
    ensures HandsOver(s, Resume(s, c, i))
  {
    EveryWayOut();
    WritingStays();
    hide Unwind, Leave, ForceCold, AfterTeardown, BeginTeardown, SlotsKept, OutsideKept, SameTags, Advance, SetPid,
        Settle, Mark, Move;
  }

  lemma LoopHands(s: Sched, c: Config, i: Inputs)
    requires InLoop(s.pc) && !s.pc.GraceTop?
    ensures HandsOver(s, Resume(s, c, i))
  {
    WritingStays();
    hide Advance, Settle, Mark, Move;
  }

  lemma GraceTopHands(s: Sched, c: Config)
    requires s.pc.GraceTop?
    ensures HandsOver(s, FromGraceTop(s, c, s.pc.id, s.pc.deadline))
  {
    EveryWayOut();
    WritingStays();
    hide BeginTeardown, Advance, Move, SetPid, FirstMatch, SlotsKept, OutsideKept, SameTags;
  }

  lemma HeadHands(s: Sched, c: Config, i: Inputs)
    requires s.pc.Head?
    ensures HandsOver(s, FromHead(s, c, i))
  {
    EveryWayOut();
    WritingStays();
    hide Unwind, Popped, AfterPop, Advance, Settle, SlotsKept, OutsideKept, SameTags;
  }

  lemma EndHands(s: Sched, c: Config, i: Inputs)
    requires EndsSlot(s.pc)
    ensures Resume(s, c, i).book.writing == s.book.writing
  {
    EveryWayOut();
    WritingStays();
    hide Unwind, Leave, ForceCold, AfterTeardown, Mark, Freeze, SlotsKept, OutsideKept, SameTags;
  }

  lemma ResumeHands(s: Sched, c: Config, i: Inputs)
    ensures HandsOver(s, Resume(s, c, i))
  {
    if s.pc.Head? {
      HeadHands(s, c, i);
    } else if s.pc.GraceTop? {
      GraceTopHands(s, c);
    } else if InLoop(s.pc) {
      LoopHands(s, c, i);
    } else if EndsSlot(s.pc) {
      EndHands(s, c, i);
    } else {
      LoadHands(s, c, i);
    }
    hide FromHead, FromGraceTop;
  }

  lemma ResumeWriting(s: Sched, c: Config, i: Inputs)
    requires WritingOk(s) && (Awaited(s.pc).Some? ==> s.book.writing.None?)
    ensures WritingOk(Resume(s, c, i))
  {
    if s.book.writing.None? {
      ResumeHands(s, c, i);
      hide Resume;
    }
  }

  lemma CancelWriting(s: Sched)
    requires WritingOk(s) && !s.pc.GraceTop?
    ensures WritingOk(Cancel(s))
  {
    WritingStays();
    hide Settle, Move, Alive;
  }

  /** What neither moves the worker nor writes a row it was given. */
  predicate IsOther(e: Event) {
    !e.Worker? && !e.ShutdownAsked? && !e.RowWritten? && !e.Sweep?
  }

  lemma OtherWriting(s: Sched, c: Config, e: Event)
    requires WritingOk(s) && IsOther(e)
    ensures WritingOk(Step(s, c, e)) && Step(s, c, e).book.writing == s.book.writing
  {
    hide TakeIdle, Settle, Admit, Restarted, GraceMatches;
    WritingStays();
  }
}
