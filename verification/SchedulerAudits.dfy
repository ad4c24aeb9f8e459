/** Which rows the worker hands to a thread, and which slot the manager says it is processing. */
module SchedulerAudits {
  import opened Wrappers
  import opened Fsm
  import opened Slots
  import opened Queue
  import opened StateDb
  import opened Timers
  import opened Scheduler
  import opened SchedulerInvariant
  import opened SchedulerFrames
  import opened SchedulerWriting
  import opened SchedulerTheorems
  import opened SchedulerRows
  import opened SchedulerLoad

  // ---- rows handed over ----

  /** Arriving at a point where it waits for a row, the worker has handed that row over. */
  predicate Hands(s': Sched) {
    Awaited(s'.pc).Some? ==> s'.book.writing == Awaited(s'.pc)
  }

  lemma OutHandsNone()
    ensures forall s: Sched, how :: Awaited(Unwind(s, how).pc).None?
    ensures forall s: Sched, how :: Awaited(Leave(s, how).pc).None?
    ensures forall s: Sched, id :: Awaited(ForceCold(s, id).pc).None?
    ensures forall s: Sched, id, why :: Awaited(AfterTeardown(s, id, why).pc).None?
    ensures forall s: Sched, id, why :: Awaited(BeginTeardown(s, id, why).pc).None?
  {
    hide Freeze, Settle, Alive;
  }

  lemma LoadHandsOver(s: Sched, c: Config, i: Inputs)
    requires !s.pc.Head? && !InLoop(s.pc) && !EndsSlot(s.pc)
    ensures Hands(Resume(s, c, i))
  {
    OutHandsNone();
    WritingStays();
    hide Unwind, BeginTeardown, Advance, SetPid, Settle, Mark, Move;
  }

  lemma LoopHandsOver(s: Sched, c: Config, i: Inputs)
    requires InLoop(s.pc) && !s.pc.GraceTop?
    ensures Hands(Resume(s, c, i))
  {
    WritingStays();
    hide Advance, Settle, Mark, Move;
  }

  lemma TopHandsOver(s: Sched, c: Config, i: Inputs)
    requires s.pc.Head? || s.pc.GraceTop?
    ensures Hands(Resume(s, c, i))
  {
    OutHandsNone();
    WritingStays();
    hide Unwind, BeginTeardown, FirstMatch, Advance, SetPid, Move, IdleWindow, PopBook, Popped, Settle;
  }

  lemma EndHandsOver(s: Sched, c: Config, i: Inputs)
    requires EndsSlot(s.pc)
    ensures Awaited(Resume(s, c, i).pc).None?
  {
    OutHandsNone();
    hide Unwind, Leave, ForceCold, AfterTeardown, Mark, Freeze;
  }

  lemma WorkerHands(s: Sched, c: Config, i: Inputs)
    ensures Hands(Resume(s, c, i))
  {
    if s.pc.Head? || s.pc.GraceTop? {
      TopHandsOver(s, c, i);
    } else if InLoop(s.pc) {
      LoopHandsOver(s, c, i);
    } else if EndsSlot(s.pc) {
      EndHandsOver(s, c, i);
    } else {
      LoadHandsOver(s, c, i);
    }
    hide Resume;
  }

  /** After a stretch of the worker a thread has a row in hand if and only if the worker waits for it, and it is that
      one: no audit is left out, and none is made besides. A cancellation of a follow-up being answered hands over its
      row. */
  lemma RowsHandedExactly(c: Config, events: seq<Event>, k: nat)
    requires RunOf(c, events) && k < |events| && StateAt(c, events, k).book.writing.None?
    requires events[k].Worker? || events[k] == ShutdownAsked
    ensures var s' := StateAt(c, events, k + 1); s'.book.writing == Awaited(s'.pc)
  {
    var s, e := StateAt(c, events, k), events[k];
    ReachedOk(c, events, k);
    if e.Worker? {
      WorkerStep(c, events, k);
      WorkerHands(s, c, e.i);
      ResumeHands(s, c, e.i);
      hide Resume;
    } else {
      CancelHandsOver(s);
      hide Cancel;
    }
    hide Inv, StateAt, Awaited;
  }

  lemma CancelHandsOver(s: Sched)
    requires s.book.writing.None? && !s.pc.GraceTop?
    ensures Cancel(s).book.writing == Awaited(Cancel(s).pc)
  {
    OutHandsNone();
    WritingStays();
    if !s.pc.MatchServe? {
      CancelSameBook(s);
    }
    hide Unwind, Settle, Move;
  }

  // ---- the slot being processed ----

  /** The slot that `_active_slot` should name: the one in `_process_slot`, or its follow-up while that has its turn;
      none once the finally block is reached. */
  function Processing(pc: Pc): Option<SlotId> {
    if InLoop(pc) then
      if pc.GraceTop? || pc.GraceSleep? then Some(pc.id) else Some(pc.m)
    else if pc.MatchCancel? || pc.Drift? then Some(pc.m)
    else if pc.TdTerm? || pc.TdVerify? || pc.TdAudit? then if pc.why == Uncaught then None else Some(pc.id)
    else if EndsSlot(pc) then if pc.IdleAudit? || pc.ColdIdleAudit? then Some(pc.id) else None
    else if pc.Head? then None
    else Some(pc.id)
  }

  predicate NamesIt(s: Sched) {
    s.activeSlot == Processing(s.pc)
  }

  lemma OutNames()
    ensures forall s: Sched, how :: NamesIt(Unwind(s, how))
    ensures forall s: Sched, how :: s.activeSlot.None? ==> NamesIt(Leave(s, how))
    ensures forall s: Sched, id :: s.activeSlot.None? ==> NamesIt(ForceCold(s, id))
    ensures forall s: Sched, id: SlotId, why ::
              s.activeSlot == (if why == Uncaught then None else Some(id)) ==> NamesIt(AfterTeardown(s, id, why))
    ensures forall s: Sched, id: SlotId, why ::
              s.activeSlot == (if why == Uncaught then None else Some(id)) ==> NamesIt(BeginTeardown(s, id, why))
  {
    hide Freeze, Settle, Alive;
  }

  lemma LoadNames(s: Sched, c: Config, i: Inputs)
    requires NamesIt(s) && !s.pc.Head? && !InLoop(s.pc) && !EndsSlot(s.pc) && (s.pc.Serve? ==> s.pc.id in s.book.slots)
    ensures NamesIt(Resume(s, c, i))
  {
    OutNames();
    hide Unwind, BeginTeardown, Advance, HandOff, SetPid, Settle, Mark, Move;
  }

  lemma LoopNames(s: Sched, c: Config, i: Inputs)
    requires NamesIt(s) && InLoop(s.pc) && !s.pc.GraceTop?
    ensures NamesIt(Resume(s, c, i))
  {
    hide Advance, Settle, Mark, Move;
  }

  lemma TopNames(s: Sched, c: Config, i: Inputs)
    requires NamesIt(s) && (s.pc.Head? || s.pc.GraceTop?)
    ensures NamesIt(Resume(s, c, i))
  {
    OutNames();
    hide Unwind, BeginTeardown, FirstMatch, Advance, SetPid, Move, IdleWindow, PopBook, Popped, Settle;
  }

  lemma EndNames(s: Sched, c: Config, i: Inputs)
    requires NamesIt(s) && EndsSlot(s.pc)
    ensures NamesIt(Resume(s, c, i))
  {
    OutNames();
    hide Unwind, Leave, ForceCold, AfterTeardown, Mark, Freeze;
  }

  lemma CancelNames(s: Sched)
    requires NamesIt(s) && !s.pc.GraceTop?
    ensures NamesIt(Cancel(s))
  {
    OutNames();
    hide Unwind, Settle, Move;
  }

  lemma StepNames(s: Sched, c: Config, e: Event)
    requires Inv(s) && NamesIt(s) && Allowed(s, e)
    ensures NamesIt(Step(s, c, e))
  {
    if e.Worker? {
      assert s.pc.Serve? ==> s.pc.id in s.book.slots by {
        hide BookOk, SideOk, CountOk, WritingOk;
      }
      if s.pc.Head? || s.pc.GraceTop? {
        TopNames(s, c, e.i);
      } else if InLoop(s.pc) {
        LoopNames(s, c, e.i);
      } else if EndsSlot(s.pc) {
        EndNames(s, c, e.i);
      } else {
        LoadNames(s, c, e.i);
      }
    } else if e == ShutdownAsked {
      CancelNames(s);
    } else if e.Request? {
      SubmitSide(s, c, e.id, e.threadId, e.modelTag, e.keepAlive, e.wait);
    }
    hide Inv, Resume, Cancel, Submit, Processing;
  }

  /** At every point of every run the manager names the slot it is processing. */
  lemma {:induction false} ActiveSlotIsProcessed(c: Config, events: seq<Event>, k: nat)
    requires RunOf(c, events) && k <= |events|
    ensures StateAt(c, events, k).activeSlot == Processing(StateAt(c, events, k).pc)
    decreases k
  {
    hide Inv, Allowed, Step;
    if k > 0 {
      ActiveSlotIsProcessed(c, events, k - 1);
      ReachedOk(c, events, k - 1);
      StepNames(StateAt(c, events, k - 1), c, events[k - 1]);
    }
  }
}
