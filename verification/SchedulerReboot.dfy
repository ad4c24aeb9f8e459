/** Which rows a shutdown leaves open for good: what the boot reconciliation of the next start makes of them. */
module SchedulerReboot {
  import opened Wrappers
  import opened Fsm
  import opened Slots
  import opened Queue
  import opened StateDb
  import opened Timers
  import opened Scheduler
  import opened SchedulerInvariant
  import opened SchedulerQueue
  import opened SchedulerFrames
  import opened SchedulerWriting
  import opened SchedulerSteps
  import opened SchedulerTheorems
  import opened SchedulerPids
  import opened SchedulerGrace
  import opened SchedulerRows
  import opened SchedulerRowRuns

  // ---- the worker only ends rows ----

  lemma QuietOnlyEnds(s: Sched, s': Sched)
    requires Quiet(s, s')
    ensures OnlyEnds(s.book, s'.book)
  {
  }

  lemma HeadOnlyEnds(s: Sched, c: Config, i: Inputs)
    requires Inv(s) && ConfigOk(c) && s.pc.Head?
    ensures OnlyEnds(s.book, FromHead(s, c, i).book)
  {
    var b, popped := PopBook(s.book, c), PoppedBy(s.book.q, c);
    PopRows(s.book, c);
    if s.stop || popped.None? || (popped.value in b.slots && b.slots[popped.value].evicted) {
      QuietHead(s, c, i, 0);
      hide Inv, FromHead, Quiet;
      QuietOnlyEnds(s, FromHead(s, c, i));
    } else {
      StartRows(s.(book := b, activeSlot := popped, latest := None), popped.value, i);
      hide Inv, PopBook, StartSlot;
    }
  }

  lemma GraceTopOnlyEnds(s: Sched, c: Config)
    requires Inv(s) && s.pc.GraceTop?
    ensures OnlyEnds(s.book, FromGraceTop(s, c, s.pc.id, s.pc.deadline).book)
  {
    var id := s.pc.id;
    HandFacts(s.book, Hand(s.pc), id);
    var slot := s.book.slots[id];
    var found := FirstMatch(s.book.q.staging, s.book.slots, slot.threadId, slot.modelTag);
    LeaveGraceShape(s, c, id);
    if found.Some? {
      PromoteQuiet(s, found.value);
    }
    hide Inv, FirstMatch, PromoteMatch, LeaveGrace, LegalHistory;
  }

  lemma WorkerOnlyEnds(s: Sched, c: Config, i: Inputs)
    requires Inv(s) && ConfigOk(c) && Allowed(s, Worker(i))
    ensures OnlyEnds(s.book, Resume(s, c, i).book)
  {
    if s.book.writing.Some? {
      CancelledRest(s, c, i);
    } else if s.pc.Head? {
      HeadOnlyEnds(s, c, i);
    } else if s.pc.GraceTop? {
      GraceTopOnlyEnds(s, c);
    } else {
      InnerShape(s, c, i);
    }
    hide Inv, FromHead, FromGraceTop, Hand;
  }

  lemma WorkerSpawns(s: Sched, c: Config, i: Inputs)
    ensures s.side.procs.Keys <= Resume(s, c, i).side.procs.Keys
  {
    ResumeFrame(s, c, i);
    if s.pc.SwapVerify? || s.pc.LoadAudit? {
      GateSpawns(s, s.pc.id, i);
    }
  }

  lemma GateSpawns(s: Sched, id: SlotId, i: Inputs)
    ensures s.side.procs.Keys <= GateAndSpawn(s, id, i).side.procs.Keys
  {
    EveryWayOut();
    hide Unwind, SlotsKept, OutsideKept, OnlyEnds;
  }

  // ---- open rows ----

  predicate IsOpen(b: Book, x: SlotId) {
    x in b.rows && b.rows[x].endedAt.None?
  }

  /** The follow-up whose last row, POPPED, is handed over or written, and not yet ended. */
  function LastAudit(pc: Pc): Option<SlotId> {
    if pc.MatchPopped? then Some(pc.m) else None
  }

  /** A state and a process that a row may be written with. */
  predicate Writable(d: Sidecars, state: SlotState, pid: Option<Pid>) {
    state != COLD && state != IDLE_HOT && (pid.Some? ==> pid.value in d.procs)
  }

  /** An open row is as some write left it, and POPPED only if it is the `last`; and the `last` one is POPPED or will
      be. */
  predicate OpenOk(s: Sched, last: Option<SlotId>, x: SlotId) {
    && (IsOpen(s.book, x) ==>
          Writable(s.side, s.book.rows[x].state, s.book.rows[x].pid)
          && (s.book.rows[x].state == POPPED ==> last == Some(x)))
    && (s.book.writing == Some(x) && x in s.book.slots ==>
          Writable(s.side, s.book.slots[x].state, s.book.slots[x].pid)
          && (s.book.slots[x].state == POPPED ==> last == Some(x)))
    && (last == Some(x) ==>
          && x in s.book.rows && s.book.rows[x].state != STAGED
          && if s.book.writing == Some(x) then At(s.book, x, POPPED)
             else IsOpen(s.book, x) && s.book.rows[x].state == POPPED)
  }

  /** What the worker hands over, by the point it then waits at. */
  lemma HandedOver(s: Sched, x: SlotId)
    requires Inv(s) && Awaited(s.pc) == Some(x)
    ensures x in s.book.slots && s.book.slots[x].state != COLD && s.book.slots[x].state != IDLE_HOT
    ensures s.book.slots[x].state == POPPED <==> LastAudit(s.pc) == Some(x)
  {
    hide SideOk, BookOk, CountOk, WritingOk;
  }

  /** Before the last audit its slot was still to be written. */
  lemma BeforeLast(s: Sched, c: Config, i: Inputs)
    requires Inv(s) && ConfigOk(c) && Allowed(s, Worker(i)) && Resume(s, c, i).pc.MatchPopped?
    ensures var s' := Resume(s, c, i);
            s'.pc.m in Upserting(s.pc) && s'.book.writing == Some(s'.pc.m) && s'.book.rows == s.book.rows
            && s.book.writing.None?
  {
    ArrivesLast(s, c, i);
    SlotWrites();
    WritingStays();
    hide Core, Advance;
  }

  /** The last audit follows the extension or the failed test for one. */
  lemma ArrivesLast(s: Sched, c: Config, i: Inputs)
    requires Resume(s, c, i).pc.MatchPopped?
    ensures s.pc.MatchGrace? || s.pc.MatchExtended?
  {
    if s.pc.Head? {
      HeadStaysOut(s, c, i);
    } else if s.pc.GraceTop? {
      GraceTopNotLast(s, c);
    } else if InLoop(s.pc) {
      LoopNotLast(s, c, i);
    } else if EndsSlot(s.pc) {
      EndStaysOut(s, c, i);
    } else if !s.pc.GraceAudit? {
      LoadStaysOut(s, c, i);
    }
    hide FromHead, FromGraceTop;
  }

  lemma GraceTopNotLast(s: Sched, c: Config)
    requires s.pc.GraceTop?
    ensures !FromGraceTop(s, c, s.pc.id, s.pc.deadline).pc.MatchPopped?
  {
    WaysOutOfLoop();
    hide BeginTeardown, FirstMatch, Advance, SetPid, Move;
  }

  lemma LoopNotLast(s: Sched, c: Config, i: Inputs)
    requires InLoop(s.pc) && !s.pc.GraceTop?
    ensures Resume(s, c, i).pc.MatchPopped? ==> s.pc.MatchGrace? || s.pc.MatchExtended?
  {
    hide Advance, Settle, Mark, Move;
  }

  /** The worker ends the last row when it goes on from there. */
  lemma AfterLast(s: Sched, c: Config, i: Inputs, x: SlotId)
    requires s.pc.MatchPopped?
    ensures var s' := Resume(s, c, i);
            !IsOpen(s'.book, s.pc.m) && s'.pc.GraceTop? && s'.book.writing == s.book.writing
            && (x != s.pc.m && x in s'.book.rows ==> x in s.book.rows && s'.book.rows[x] == s.book.rows[x])
  {
  }

  lemma WorkerOpenStep(s: Sched, c: Config, i: Inputs, x: SlotId)
    requires Inv(s) && ConfigOk(c) && Allowed(s, Worker(i)) && UpsOk(s, x)
    requires OpenOk(s, LastAudit(s.pc), x) && PidOk(Resume(s, c, i), x) && s.book.writing.None?
    ensures OpenOk(Resume(s, c, i), LastAudit(Resume(s, c, i).pc), x)
  {
    var s' := Resume(s, c, i);
    ResumeKeeps(s, c, i);
    ResumeHands(s, c, i);
    WorkerOnlyEnds(s, c, i);
    WorkerSpawns(s, c, i);
    if s.pc.MatchPopped? {
      AfterLast(s, c, i, x);
    }
    if s'.pc.MatchPopped? {
      BeforeLast(s, c, i);
    }
    if s'.book.writing == Some(x) {
      HandedOver(s', x);
    }
    hide Inv, Resume, Upserting, Awaited;
  }

  /** A cancelled worker ends at most the row of the follow-up it was answering. */
  lemma CancelledOpenStep(s: Sched, c: Config, i: Inputs, last: Option<SlotId>, x: SlotId)
    requires OpenOk(s, last, x) && (s.pc.MatchCancel? ==> last.None? && s.book.writing.None?)
    requires s.pc.Exited? || s.pc.MatchCancel? || (s.pc.FinTerm? && s.pc.how.Cancelled?)
    ensures OpenOk(Resume(s, c, i), last, x)
  {
    WorkerSpawns(s, c, i);
    hide Alive;
  }

  lemma CancelOpenStep(s: Sched, x: SlotId)
    requires Inv(s) && !s.pc.GraceTop? && OpenOk(s, LastAudit(s.pc), x) && PidOk(Cancel(s), x)
    ensures OpenOk(Cancel(s), LastAudit(s.pc), x)
  {
    CancelKeeps(s);
    CancelFrame(s);
    if s.pc.MatchServe? {
      CancelQuiet(s);
      if Cancel(s).book.writing == Some(x) {
        HandedOver(Cancel(s), x);
      }
    } else {
      CancelSameBook(s);
    }
    hide Inv, Cancel;
  }

  lemma WrittenOpenStep(s: Sched, last: Option<SlotId>, x: SlotId)
    requires Inv(s) && OpenOk(s, last, x)
    ensures OpenOk(s.(book := Landed(s.book, s.now)), last, x)
  {
    WritingInHand(s);
    if s.book.writing.Some? {
      HandFacts(s.book, Hand(s.pc), s.book.writing.value);
    }
    hide Inv, Hand, LegalHistory;
  }

  lemma SweptOpenStep(s: Sched, ids: set<SlotId>, last: Option<SlotId>, x: SlotId)
    requires OpenOk(s, last, x) && (x in ids ==> last != Some(x))
    ensures OpenOk(s.(book := Swept(s.book, ids, s.now)), last, x)
  {
  }

  /** Nothing that concerns the row of `x` has changed. */
  lemma SameOpen(s: Sched, s': Sched, last: Option<SlotId>, x: SlotId)
    requires OpenOk(s, last, x) && RowUntouched(s, s', x) && s.side.procs.Keys <= s'.side.procs.Keys
    requires x in s.book.slots && x in s'.book.slots ==> s'.book.slots[x].pid == s.book.slots[x].pid
    ensures OpenOk(s', last, x)
  {
  }

  lemma FreshOpen(s: Sched, s': Sched, last: Option<SlotId>, x: SlotId)
    requires FreshRow(s'.book, x, s.now) && LetInAs(s'.book.slots[x]) in {STAGED, ACCEPT_BUFFER}
    requires s'.book.writing != Some(x) && last != Some(x)
    ensures OpenOk(s', last, x)
  {
    hide LetInAs;
  }

  lemma RequestOpenStep(s: Sched, c: Config, e: Event, last: Option<SlotId>, x: SlotId)
    requires Inv(s) && e.Request? && e.id !in s.book.slots && OpenOk(s, last, x)
    ensures OpenOk(Submit(s, c, e.id, e.threadId, e.modelTag, e.keepAlive, e.wait), last, x)
  {
    var s' := Submit(s, c, e.id, e.threadId, e.modelTag, e.keepAlive, e.wait);
    SubmitRows(s, c, e, x);
    SubmitSide(s, c, e.id, e.threadId, e.modelTag, e.keepAlive, e.wait);
    assert PlaceOk(s.book, Hand(s.pc), e.id);
    WritingInHand(s);
    if x == e.id && s'.book != s.book {
      SubmittedTier(s, c, e);
      assert x !in s.book.rows && s.book.writing != Some(x);
      hide Submit, Inv, Hand, FreshRow;
      FreshOpen(s, s', last, x);
    } else {
      hide Submit, Inv, Hand, OpenOk, FreshRow;
      SameOpen(s, s', last, x);
    }
  }

  lemma SubmittedTier(s: Sched, c: Config, e: Event)
    requires e.Request? && e.id !in s.book.slots
    ensures var b := Submit(s, c, e.id, e.threadId, e.modelTag, e.keepAlive, e.wait).book;
            e.id in b.slots ==> LetInAs(b.slots[e.id]) in {STAGED, ACCEPT_BUFFER}
  {
    hide Upserted, AfterEnqueue, Admit;
  }

  /** Every event that does not move the worker. */
  lemma TaskOpenStep(s: Sched, c: Config, e: Event, last: Option<SlotId>, x: SlotId)
    requires Inv(s) && Allowed(s, e) && OpenOk(s, last, x) && !e.Worker? && !e.ShutdownAsked?
    ensures OpenOk(Step(s, c, e), last, x)
  {
    if e.Request? {
      RequestOpenStep(s, c, e, last, x);
    } else if e.RowWritten? {
      WrittenOpenStep(s, last, x);
    } else if e.Sweep? {
      assert x in e.ids ==> x in Stale(s.book.rows, e.cutoff);
      WrittenOpenStep(s, last, x);
      SweptOpenStep(if e.between then s.(book := Landed(s.book, s.now)) else s, e.ids, last, x);
    } else {
      assert RowUntouched(s, Step(s, c, e), x) && s.side.procs.Keys == Step(s, c, e).side.procs.Keys;
      hide OpenOk, Inv;
      SameOpen(s, Step(s, c, e), last, x);
    }
    hide Inv, OpenOk, Submit, Landed, Swept;
  }

  // ---- over runs ----

  lemma {:induction false} OpenBefore(c: Config, events: seq<Event>, k: nat, x: SlotId)
    requires RunOf(c, events) && k <= |events| && forall i :: 0 <= i < k ==> events[i] != ShutdownAsked
    ensures OpenOk(StateAt(c, events, k), LastAudit(StateAt(c, events, k).pc), x)
    decreases k
  {
    hide Inv, Allowed, Step, OpenOk, UpsOk, PidOk;
    if k > 0 {
      OpenBefore(c, events, k - 1, x);
      ReachedOk(c, events, k - 1);
      RowsReached(c, events, k - 1, x);
      PidReached(c, events, k, x);
      BeforeStep(StateAt(c, events, k - 1), c, events[k - 1], x);
    } else {
      NothingOpen(x);
    }
  }

  lemma NothingOpen(x: SlotId)
    ensures OpenOk(Init(), None, x)
  {
  }

  lemma BeforeStep(s: Sched, c: Config, e: Event, x: SlotId)
    requires Inv(s) && ConfigOk(c) && Allowed(s, e) && e != ShutdownAsked && UpsOk(s, x)
    requires OpenOk(s, LastAudit(s.pc), x) && PidOk(Step(s, c, e), x)
    ensures OpenOk(Step(s, c, e), LastAudit(Step(s, c, e).pc), x)
  {
    if e.Worker? && s.book.writing.None? {
      WorkerOpenStep(s, c, e.i, x);
    } else if e.Worker? {
      CancelledAlready(s, c, e.i);
      CancelledOpenStep(s, c, e.i, None, x);
    } else {
      TaskOpenStep(s, c, e, LastAudit(s.pc), x);
      assert Step(s, c, e).pc == s.pc by {
        hide Inv, OpenOk, UpsOk, PidOk;
      }
    }
    hide Inv, OpenOk, UpsOk, PidOk, Resume, Step;
  }

  /** A worker that moves on while a row is being written was cancelled. */
  lemma CancelledAlready(s: Sched, c: Config, i: Inputs)
    requires Inv(s) && Allowed(s, Worker(i)) && s.book.writing.Some?
    ensures s.pc.Exited? || (s.pc.FinTerm? && s.pc.how.Cancelled?)
    ensures !Resume(s, c, i).pc.MatchPopped?
  {
    hide Core;
  }

  lemma {:induction false} OpenAfter(c: Config, events: seq<Event>, k0: nat, k: nat, x: SlotId)
    requires RunOf(c, events) && k0 < k <= |events| && events[k0] == ShutdownAsked
    ensures var last := LastAudit(StateAt(c, events, k0).pc);
            && OpenOk(StateAt(c, events, k), last, x)
            && (StateAt(c, events, k).pc.MatchCancel? ==> last.None?)
    decreases k
  {
    hide Inv, Allowed, Step, OpenOk, PidOk, RunOf, StateAt, Hand, LastAudit, CancelledOk;
    var asked, s, e := StateAt(c, events, k0), StateAt(c, events, k - 1), events[k - 1];
    ReachedOk(c, events, k - 1);
    PidReached(c, events, k, x);
    if k == k0 + 1 {
      AskedOnce(c, events, k0);
      OpenBefore(c, events, k0, x);
      AskStep(asked, c, x);
    } else {
      OpenAfter(c, events, k0, k - 1, x);
      CancelledReached(c, events, k0, k - 1);
      AfterStep(s, c, e, Hand(asked.pc), LastAudit(asked.pc), x);
    }
  }

  /** It is asked for once. */
  lemma AskedOnce(c: Config, events: seq<Event>, k0: nat)
    requires RunOf(c, events) && k0 < |events| && events[k0] == ShutdownAsked
    ensures forall i :: 0 <= i < k0 ==> events[i] != ShutdownAsked
  {
    ReachedOk(c, events, k0);
    forall i | 0 <= i < k0 ensures events[i] != ShutdownAsked {
      if events[i] == ShutdownAsked {
        CancelledReached(c, events, i, k0);
        assert false;
      }
    }
  }

  lemma AskStep(s: Sched, c: Config, x: SlotId)
    requires Inv(s) && Allowed(s, ShutdownAsked) && OpenOk(s, LastAudit(s.pc), x)
    requires PidOk(Step(s, c, ShutdownAsked), x)
    ensures var s' := Step(s, c, ShutdownAsked);
            OpenOk(s', LastAudit(s.pc), x) && (s'.pc.MatchCancel? ==> LastAudit(s.pc).None?)
  {
    CancelOpenStep(s, x);
    hide Inv, OpenOk, PidOk, Alive;
  }

  lemma AfterStep(s: Sched, c: Config, e: Event, hand: set<SlotId>, last: Option<SlotId>, x: SlotId)
    requires Inv(s) && Allowed(s, e) && CancelledOk(s, hand) && OpenOk(s, last, x)
    requires s.pc.MatchCancel? ==> last.None?
    ensures OpenOk(Step(s, c, e), last, x) && (Step(s, c, e).pc.MatchCancel? ==> last.None?)
  {
    if e.Worker? {
      CancelledOpenStep(s, c, e.i, last, x);
      assert !Resume(s, c, e.i).pc.MatchCancel? by {
        hide Inv, OpenOk, Alive;
      }
    } else {
      TaskOpenStep(s, c, e, last, x);
      assert Step(s, c, e).pc == s.pc by {
        hide Inv, OpenOk;
      }
    }
    hide Inv, OpenOk, Resume, Step;
  }

  // ---- the next start ----

  /** Take a finished shutdown whose threads have written what they were given, and a next start whose host finds none
      of the run's processes alive. Its reconciliation leaves exactly one row open, if any: that of a follow-up whose
      last audit, POPPED, the cancellation cut off. No sweep and no later reconciliation ends that row either. */
  lemma OpenAfterReboot(c: Config, events: seq<Event>, k0: nat, k: nat, isAlive: Pid -> bool, live: set<Pid>, now: int,
      id: SlotId)
    requires RunOf(c, events) && k0 < k <= |events| && events[k0] == ShutdownAsked
    requires StateAt(c, events, k).shut == Complete && StateAt(c, events, k).book.writing.None?
    requires forall p :: p in StateAt(c, events, k).side.procs ==> !isAlive(p)
    requires forall p :: p in live <==> p != 0 && isAlive(p) && HasRowInUse(StateAt(c, events, k).book.rows, p)
    requires id in StateAt(c, events, k).book.rows
    ensures var pc, r := StateAt(c, events, k0).pc, Reconciled(StateAt(c, events, k).book.rows, live, now)[id];
            && (r.endedAt.None? <==> pc.MatchPopped? && id == pc.m)
            && (r.endedAt.None? ==> r.state == POPPED)
  {
    var rows := StateAt(c, events, k).book.rows;
    OpenAfter(c, events, k0, k, id);
    BootAccounts(rows, isAlive, live, now);
    hide RunOf, StateAt, Reconciled, HasRowInUse;
  }
}
