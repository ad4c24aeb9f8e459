/** The life of a slot's row: the worker hands it to a thread, the thread writes it, a sweep or the worker ends it. */
module SchedulerRows {
  import opened Wrappers
  import opened Fsm
  import opened Slots
  import opened Queue
  import opened QueueRuns
  import opened StateDb
  import opened Timers
  import opened Scheduler
  import opened SchedulerInvariant
  import opened SchedulerQueue
  import opened SchedulerFrames
  import opened SchedulerWriting
  import opened SchedulerSteps

  // ---- who writes a row ----

  /** A thread is writing the row, or the worker will hand it to one again. */
  predicate ToWrite(s: Sched, x: SlotId) {
    x in Upserting(s.pc) || s.book.writing == Some(x)
  }

  predicate Tracked(b: Book, x: SlotId) {
    Queued(b.q, x) || x in b.gone
  }

  /** The slots whose rows nothing but a sweep ends: those queued, those evicted, and those still to be written. */
  predicate Watched(s: Sched, x: SlotId) {
    Tracked(s.book, x) || ToWrite(s, x)
  }

  /** A slot to be written has left STAGED, and so has its row once a write has landed: no sweep takes it then. */
  predicate UpsOk(s: Sched, x: SlotId) {
    ToWrite(s, x) ==>
      && x in s.book.slots && s.book.slots[x].state != STAGED
      && (s.book.writing != Some(x) ==> x in s.book.rows && s.book.rows[x].state != STAGED)
  }

  ghost predicate RowsOk(s: Sched) {
    forall x :: UpsOk(s, x)
  }

  predicate IsEnded(b: Book, id: SlotId) {
    id in b.rows && b.rows[id].endedAt.Some?
  }

  /** The slot whose row a thread writes in this event. */
  function Lands(s: Sched, e: Event): Option<SlotId> {
    if e.RowWritten? || (e.Sweep? && e.between) then s.book.writing else None
  }

  /** The event writes a row that has been ended. */
  predicate Reopens(s: Sched, e: Event) {
    Lands(s, e).Some? && IsEnded(s.book, Lands(s, e).value)
  }

  /** A watched row after the event: first the thread's write, then the sweeper's. */
  function RowAfter(s: Sched, e: Event, x: SlotId): Row
    requires x in s.book.rows
  {
    var r := s.book.rows[x];
    var written := if Lands(s, e) == Some(x) && x in s.book.slots
                   then Row(s.book.slots[x].state, s.book.slots[x].pid, r.createdAt, None, None) else r;
    if e.Sweep? && x in e.ids then EndedRow(written, "background_sweeper_evicted", s.now) else written
  }

  /** The row of a slot just let in: open, in the state of its tier, with no process. */
  predicate FreshRow(b: Book, x: SlotId, now: int) {
    && x in b.slots && b.slots[x].trail != []
    && x in b.rows && b.rows[x] == Row(LetInAs(b.slots[x]), None, now, None, None)
  }

  /** What an event may do to one slot's row: a watched one is written and swept, and nothing else; a slot becomes
      watched when it is let in; a row is STAGED only from then on, and never again; and one is reopened exactly if
      a thread's write lands on an ended row. */
  ghost predicate RowStep(s: Sched, s': Sched, e: Event, x: SlotId) {
    && UpsOk(s', x) && (x in s.book.gone ==> x in s'.book.gone)
    && (s'.book.reopened <==> s.book.reopened || Reopens(s, e))
    && (Queued(s'.book.q, x) && x in s.book.slots ==> Queued(s.book.q, x))
    && (Tracked(s'.book, x) && x in s.book.slots ==> Tracked(s.book, x))
    && (Watched(s', x) ==>
          x in s'.book.rows
          && if Watched(s, x) then x in s.book.rows && s'.book.rows[x] == RowAfter(s, e, x)
             else x !in s.book.slots && FreshRow(s'.book, x, s.now))
    && (x in s'.book.rows && s'.book.rows[x].state == STAGED ==>
          x !in s.book.slots || (x in s.book.rows && s.book.rows[x].state == STAGED && Lands(s, e) != Some(x)))
  }

  // ---- the worker's steps ----

  /** No row is touched, and one is handed over only if the worker was to write it or took the slot up. */
  ghost predicate Quiet(s: Sched, s': Sched) {
    && s'.book.rows == s.book.rows && s'.book.reopened == s.book.reopened
    && (s'.book.writing == s.book.writing ||
        (s'.book.writing.Some? && s'.book.writing == Awaited(s'.pc)
         && (s'.book.writing.value in Upserting(s.pc) || Queued(s.book.q, s'.book.writing.value))))
    && (forall x :: x in Upserting(s'.pc) ==>
          x in Upserting(s.pc) || (s'.book.writing == Some(x) && Queued(s.book.q, x)))
  }

  /** Rows of `ids` may be ended, and nothing is to be written any more. */
  ghost predicate RowsOut(b: Book, b': Book, ids: set<SlotId>) {
    && b'.reopened == b.reopened && b'.writing == b.writing && b'.q == b.q && b'.gone == b.gone && OnlyEnds(b, b')
    && forall x :: x in b.rows && x !in ids ==> x in b'.rows && b'.rows[x] == b.rows[x]
  }

  ghost predicate Closing(s: Sched, s': Sched, ids: set<SlotId>) {
    RowsOut(s.book, s'.book, ids) && Upserting(s'.pc) == {}
  }

  predicate SameQueue(b: Book, b': Book) {
    b'.q == b.q && b'.gone == b.gone
  }

  /** Writes to slots leave rows and queue alone. */
  lemma SlotWrites()
    ensures forall b, id, to {:trigger Move(b, id, to)} ::
              SameQueue(b, Move(b, id, to)) && Move(b, id, to).rows == b.rows && Move(b, id, to).reopened == b.reopened
    ensures forall b, id, v {:trigger Settle(b, id, v)} ::
              SameQueue(b, Settle(b, id, v)) && Settle(b, id, v).rows == b.rows
              && Settle(b, id, v).reopened == b.reopened
    ensures forall b, id, pid {:trigger SetPid(b, id, pid)} ::
              SameQueue(b, SetPid(b, id, pid)) && SetPid(b, id, pid).rows == b.rows
              && SetPid(b, id, pid).reopened == b.reopened
    ensures forall b, id, to {:trigger Advance(b, id, to)} ::
              SameQueue(b, Advance(b, id, to)) && Advance(b, id, to).rows == b.rows
              && Advance(b, id, to).reopened == b.reopened
  {
  }

  /** On the way out only rows of `ids` are ended, step after step. */
  lemma OutWrites(ids: set<SlotId>)
    ensures forall b, id, to :: RowsOut(b, Move(b, id, to), ids)
    ensures forall b, id, v :: RowsOut(b, Settle(b, id, v), ids)
    ensures forall b, id, reason, now :: id in ids ==> RowsOut(b, Mark(b, id, reason, now), ids)
    ensures forall b, id, now :: id in ids ==> RowsOut(b, Freeze(b, id, now), ids)
    ensures forall b, b1, b2 {:trigger RowsOut(b, b1, ids), RowsOut(b1, b2, ids)} ::
              RowsOut(b, b1, ids) && RowsOut(b1, b2, ids) ==> RowsOut(b, b2, ids)
    ensures forall b :: RowsOut(b, b, ids)
  {
    forall b, id, now | id in ids ensures RowsOut(b, Freeze(b, id, now), ids) {
      FreezeKept(b, id, now);
      hide Freeze, SlotsKept;
    }
    hide Freeze;
  }

  lemma WaysOutClose(ids: set<SlotId>)
    ensures forall s: Sched, how :: LeftBy(how) <= ids ==> Closing(s, Unwind(s, how), ids)
    ensures forall s: Sched, how :: LeftBy(how) <= ids ==> Closing(s, Leave(s, how), ids)
    ensures forall s: Sched, id :: id in ids ==> Closing(s, ForceCold(s, id), ids)
    ensures forall s: Sched, id, why :: id in ids ==> Closing(s, AfterTeardown(s, id, why), ids)
    ensures forall s: Sched, id, why :: id in ids ==> Closing(s, BeginTeardown(s, id, why), ids)
  {
    EveryWayOut();
    OutCloses(ids);
    hide Unwind, Leave, ForceCold, AfterTeardown, BeginTeardown, WaysOut, Closing;
  }

  lemma OutCloses(ids: set<SlotId>)
    ensures forall s, s', out :: WaysOut(s, s', out) && out <= ids ==> Closing(s, s', ids)
  {
    hide SlotsKept, SameTags, OnlyEnds;
  }

  /** What a step of the worker with no row in a thread's hand may do: one or the other, with the slot in hand. */
  ghost predicate Shape(s: Sched, s': Sched, ids: set<SlotId>) {
    SameQueue(s.book, s'.book) && (Quiet(s, s') || Closing(s, s', ids))
  }

  lemma ClosedQueue()
    ensures forall b, b', ids :: RowsOut(b, b', ids) ==> SameQueue(b, b')
  {
    hide OnlyEnds;
  }

  lemma GateShape(s: Sched, id: SlotId, i: Inputs)
    requires id in Upserting(s.pc)
    ensures Shape(s, GateAndSpawn(s, id, i), {id})
  {
    SlotWrites();
    WritingStays();
    WaysOutClose({id});
    ClosedQueue();
    hide RowsOut, Unwind, Advance, SetPid;
  }

  predicate Refusing(pc: Pc) {
    pc.RiskFail? || pc.RefuseAudit? || pc.FailAudit?
  }

  lemma RefuseCloses(s: Sched, id: SlotId, reason: string)
    ensures Closing(s, Refuse(s, id, reason), {id})
  {
    OutWrites({id});
    WaysOutClose({id});
    hide RowsOut, Unwind, Settle, Mark, Move;
  }

  lemma RefusalShape(s: Sched, c: Config, i: Inputs)
    requires Refusing(s.pc)
    ensures Shape(s, Resume(s, c, i), {s.pc.id})
  {
    if s.pc.FailAudit? {
      OutWrites({s.pc.id});
      WaysOutClose({s.pc.id});
    } else {
      RefuseCloses(s, s.pc.id, "manifest_not_found");
      RefuseCloses(s, s.pc.id, "safety_gate_refused");
    }
    ClosedQueue();
    hide RowsOut, Refuse, BeginTeardown, Move;
  }

  lemma LoadShape(s: Sched, c: Config, i: Inputs)
    requires !s.pc.Head? && !InLoop(s.pc) && !EndsSlot(s.pc)
    ensures Shape(s, Resume(s, c, i), {s.pc.id})
  {
    if Refusing(s.pc) {
      RefusalShape(s, c, i);
    } else if s.pc.LoadAudit? || s.pc.SwapTerm? || s.pc.SwapVerify? {
      SpawnShape(s, c, i);
    } else {
      ActiveShape(s, c, i);
    }
    hide Shape, Resume;
  }

  lemma ActiveShape(s: Sched, c: Config, i: Inputs)
    requires !s.pc.Head? && !InLoop(s.pc) && !EndsSlot(s.pc) && !Refusing(s.pc)
    requires !s.pc.LoadAudit? && !s.pc.SwapTerm? && !s.pc.SwapVerify?
    ensures Shape(s, Resume(s, c, i), {s.pc.id})
  {
    if s.pc.HealthWait? || s.pc.Serve? {
      AnsweredShape(s, c, i);
    } else {
      SlotWrites();
      WritingStays();
      hide Advance, RowsOut, Closing;
    }
  }

  lemma AnsweredShape(s: Sched, c: Config, i: Inputs)
    requires s.pc.HealthWait? || s.pc.Serve?
    ensures Shape(s, Resume(s, c, i), {s.pc.id})
  {
    SlotWrites();
    WritingStays();
    WaysOutClose({s.pc.id});
    ClosedQueue();
    hide RowsOut, Unwind, Advance, Settle;
  }

  lemma SpawnShape(s: Sched, c: Config, i: Inputs)
    requires s.pc.LoadAudit? || s.pc.SwapTerm? || s.pc.SwapVerify?
    ensures Shape(s, Resume(s, c, i), {s.pc.id})
  {
    GateShape(s, s.pc.id, i);
    SlotWrites();
    WaysOutClose({s.pc.id});
    ClosedQueue();
    hide RowsOut, Unwind, SetPid, GateAndSpawn;
  }

  lemma LoopShape(s: Sched, c: Config, i: Inputs)
    requires InLoop(s.pc) && !s.pc.GraceTop?
    ensures Shape(s, Resume(s, c, i), Hand(s.pc))
  {
    if s.pc.MatchPopped? {
      OutWrites(Hand(s.pc));
      ClosedQueue();
      hide Quiet, RowsOut, Mark;
    } else {
      FollowupShape(s, c, i);
      hide Resume, Closing;
    }
  }

  lemma FollowupShape(s: Sched, c: Config, i: Inputs)
    requires InLoop(s.pc) && !s.pc.GraceTop? && !s.pc.MatchPopped?
    ensures SameQueue(s.book, Resume(s, c, i).book) && Quiet(s, Resume(s, c, i))
  {
    if s.pc.MatchGrace? || s.pc.MatchExtended? {
      PopQuiet(s, c, i);
    } else {
      AnswerQuiet(s, c, i);
    }
    hide Resume, Quiet, SameQueue;
  }

  lemma AnswerQuiet(s: Sched, c: Config, i: Inputs)
    requires s.pc.GraceSleep? || s.pc.MatchAudit? || s.pc.MatchServe?
    ensures SameQueue(s.book, Resume(s, c, i).book) && Quiet(s, Resume(s, c, i))
  {
    SlotWrites();
    WritingStays();
    hide Advance, Settle, Move;
  }

  lemma PopQuiet(s: Sched, c: Config, i: Inputs)
    requires s.pc.MatchGrace? || s.pc.MatchExtended?
    ensures SameQueue(s.book, Resume(s, c, i).book) && Quiet(s, Resume(s, c, i))
  {
    SlotWrites();
    WritingStays();
    hide Advance;
  }

  lemma TeardownShape(s: Sched, c: Config, i: Inputs)
    requires s.pc.TdTerm? || s.pc.TdVerify? || s.pc.TdAudit?
    ensures Shape(s, Resume(s, c, i), {s.pc.id})
  {
    OutWrites({s.pc.id});
    WaysOutClose({s.pc.id});
    ClosedQueue();
    hide RowsOut, Unwind, ForceCold, AfterTeardown, Mark;
  }

  lemma EndShape(s: Sched, c: Config, i: Inputs)
    requires EndsSlot(s.pc)
    ensures Shape(s, Resume(s, c, i), Hand(s.pc))
  {
    if s.pc.TdTerm? || s.pc.TdVerify? || s.pc.TdAudit? {
      TeardownShape(s, c, i);
    } else if s.pc.MatchCancel? || s.pc.IdleAudit? || s.pc.ColdIdleAudit? {
      ParkedShape(s, c, i);
    } else if s.pc.FinTerm? || s.pc.FcTerm? {
      LastTermShape(s, c, i);
    }
  }

  lemma LastTermShape(s: Sched, c: Config, i: Inputs)
    requires s.pc.FinTerm? || s.pc.FcTerm?
    ensures Shape(s, Resume(s, c, i), Hand(s.pc))
  {
    OutWrites(Hand(s.pc));
    WaysOutClose(Hand(s.pc));
    ClosedQueue();
    hide RowsOut, Leave, Freeze;
  }

  lemma ParkedShape(s: Sched, c: Config, i: Inputs)
    requires s.pc.MatchCancel? || s.pc.IdleAudit? || s.pc.ColdIdleAudit?
    ensures Shape(s, Resume(s, c, i), Hand(s.pc))
  {
    OutWrites(Hand(s.pc));
    WaysOutClose(Hand(s.pc));
    ClosedQueue();
    hide RowsOut, Unwind, Mark;
  }

  /** Between the two loops' tops. */
  lemma InnerShape(s: Sched, c: Config, i: Inputs)
    requires !s.pc.Head? && !s.pc.GraceTop?
    ensures Shape(s, Resume(s, c, i), Hand(s.pc))
  {
    if InLoop(s.pc) {
      LoopShape(s, c, i);
    } else if EndsSlot(s.pc) {
      EndShape(s, c, i);
    } else {
      LoadShape(s, c, i);
    }
    hide Quiet, Closing, SameQueue, Resume;
  }

  lemma PromoteQuiet(s: Sched, at: nat)
    requires s.pc.GraceTop? && at < |s.book.q.staging|
    ensures var s' := PromoteMatch(s, s.pc.id, at, s.pc.deadline);
            && Quiet(s, s') && s'.book.gone == s.book.gone
            && s'.book.q == s.book.q.(staging := Without(s.book.q.staging, at))
  {
    SlotWrites();
    WritingStays();
    hide Advance, SetPid, Without, Flagged;
  }

  lemma LeaveGraceShape(s: Sched, c: Config, id: SlotId)
    ensures Closing(s, LeaveGrace(s, c, id), {id})
  {
    OutWrites({id});
    WaysOutClose({id});
    hide RowsOut, BeginTeardown, Move;
  }

  // ---- one slot's row, by the kind of step ----

  /** What the queue and the evictions may do to one slot in a step. */
  predicate QueueShrinks(b: Book, b': Book, x: SlotId) {
    && (Queued(b'.q, x) ==> Queued(b.q, x)) && (x in b.gone ==> x in b'.gone)
    && (x in b'.gone ==> Tracked(b, x))
  }

  /** Where the worker is inside a slot, what it writes has left STAGED. */
  lemma WrittenSlots(s: Sched, x: SlotId)
    requires Inv(s) && (x in Upserting(s.pc) || Awaited(s.pc) == Some(x))
    ensures x in s.book.slots && s.book.slots[x].state != STAGED
  {
    hide SideOk, BookOk, CountOk, WritingOk;
  }

  lemma WatchedRow(s: Sched, x: SlotId)
    requires Inv(s) && UpsOk(s, x) && Watched(s, x)
    ensures x in s.book.rows && x in s.book.slots
  {
    assert PlaceOk(s.book, Hand(s.pc), x);
    hide LegalHistory, Distinct, SideOk, PcOk, CountOk, Hand, WritingOk;
  }

  predicate NoWrite(s: Sched, e: Event) {
    Lands(s, e).None? && !e.Sweep?
  }

  lemma QuietRowStep(s: Sched, s': Sched, e: Event, x: SlotId)
    requires Inv(s) && Inv(s') && UpsOk(s, x) && NoWrite(s, e) && s.book.writing.None?
    requires Quiet(s, s') && QueueShrinks(s.book, s'.book, x)
    ensures RowStep(s, s', e, x)
  {
    if Watched(s, x) {
      WatchedRow(s, x);
    }
    if ToWrite(s', x) {
      WrittenSlots(s', x);
    }
    hide Inv, Upserting, Awaited;
  }

  lemma ClosingRowStep(s: Sched, b: Book, s': Sched, ids: set<SlotId>, e: Event, x: SlotId)
    requires Inv(s) && UpsOk(s, x) && NoWrite(s, e) && s.book.writing.None?
    requires b.rows == s.book.rows && b.reopened == s.book.reopened && b.writing.None?
    requires QueueShrinks(s.book, b, x) && (Tracked(b, x) ==> x !in ids)
    requires RowsOut(b, s'.book, ids) && Upserting(s'.pc) == {}
    ensures RowStep(s, s', e, x)
  {
    if Watched(s, x) {
      WatchedRow(s, x);
    }
    hide Inv, Upserting;
  }

  lemma SameBookStep(s: Sched, s': Sched, e: Event, x: SlotId)
    requires Inv(s) && UpsOk(s, x) && NoWrite(s, e)
    requires s'.book == s.book && Upserting(s'.pc) <= Upserting(s.pc)
    ensures RowStep(s, s', e, x)
  {
    if Watched(s, x) {
      WatchedRow(s, x);
    }
    hide Inv, Upserting;
  }

  lemma TrackedNotInHand(s: Sched, x: SlotId)
    requires Inv(s)
    ensures Tracked(s.book, x) ==> x !in Hand(s.pc)
  {
    assert PlaceOk(s.book, Hand(s.pc), x);
    hide LegalHistory, Distinct, SideOk, PcOk, CountOk, Hand;
  }

  lemma InnerRowStep(s: Sched, c: Config, i: Inputs, x: SlotId)
    requires Inv(s) && UpsOk(s, x) && ConfigOk(c) && Allowed(s, Worker(i)) && s.book.writing.None?
    requires !s.pc.Head? && !s.pc.GraceTop?
    ensures RowStep(s, Resume(s, c, i), Worker(i), x)
  {
    var s' := Resume(s, c, i);
    ResumeKeeps(s, c, i);
    InnerShape(s, c, i);
    TrackedNotInHand(s, x);
    hide Inv, Resume, RowStep, RowsOut, Hand;
    if Quiet(s, s') {
      QuietRowStep(s, s', Worker(i), x);
    } else {
      ClosingRowStep(s, s.book, s', Hand(s.pc), Worker(i), x);
    }
  }

  /** A worker that was cancelled changes nothing more, whoever still writes. */
  lemma CancelledRest(s: Sched, c: Config, i: Inputs)
    requires Inv(s) && Allowed(s, Worker(i)) && s.book.writing.Some?
    ensures Resume(s, c, i).book == s.book && Upserting(Resume(s, c, i).pc) == {}
  {
    hide Core;
  }

  lemma GraceTopRowStep(s: Sched, c: Config, i: Inputs, x: SlotId)
    requires Inv(s) && UpsOk(s, x) && ConfigOk(c) && Allowed(s, Worker(i)) && s.pc.GraceTop?
    ensures RowStep(s, FromGraceTop(s, c, s.pc.id, s.pc.deadline), Worker(i), x)
  {
    var id, s' := s.pc.id, FromGraceTop(s, c, s.pc.id, s.pc.deadline);
    ResumeKeeps(s, c, i);
    HandFacts(s.book, Hand(s.pc), id);
    TrackedNotInHand(s, x);
    assert s.book.writing.None?;
    if s.now < s.pc.deadline && !s.stop {
      QuietGraceTop(s, c, x);
      hide Inv, FromGraceTop, RowStep, Quiet, QueueShrinks;
      QuietRowStep(s, s', Worker(i), x);
    } else {
      LeaveGraceShape(s, c, id);
      hide Core, LeaveGrace, RowStep, RowsOut, LegalHistory;
      ClosingRowStep(s, s.book, s', {id}, Worker(i), x);
    }
  }

  lemma QuietGraceTop(s: Sched, c: Config, x: SlotId)
    requires s.pc.GraceTop? && s.pc.id in s.book.slots && s.now < s.pc.deadline && !s.stop
    ensures var s' := FromGraceTop(s, c, s.pc.id, s.pc.deadline);
            Quiet(s, s') && QueueShrinks(s.book, s'.book, x)
  {
    var slot := s.book.slots[s.pc.id];
    var found := FirstMatch(s.book.q.staging, s.book.slots, slot.threadId, slot.modelTag);
    if found.Some? {
      PromoteQuiet(s, found.value);
      WithoutShrinks(s.book.q.staging, found.value, x);
    }
    hide FirstMatch, PromoteMatch;
  }

  lemma WithoutShrinks(ids: seq<SlotId>, at: nat, x: SlotId)
    requires at < |ids|
    ensures x in Without(ids, at) ==> x in ids
  {
  }

  // ---- the top of the worker's loop ----

  /** A pop touches no row and hands none over. */
  lemma PopRows(b: Book, c: Config)
    ensures var b' := PopBook(b, c);
            b'.rows == b.rows && b'.reopened == b.reopened && b'.writing == b.writing && b'.gone == b.gone
  {
  }

  lemma PopShrinks(s: Sched, c: Config, x: SlotId)
    requires Inv(s) && ConfigOk(c)
    ensures QueueShrinks(s.book, PopBook(s.book, c), x)
  {
    PopLeavesOthersQueued(s.book.q, c, x);
    hide Distinct, PlaceOk, SideOk, PcOk, CountOk, AfterPop, Popped, AllStaged, Flagged;
  }

  lemma PoppedWasQueued(s: Sched, c: Config)
    requires Inv(s) && ConfigOk(c) && s.pc.Head?
    ensures var popped := PoppedBy(s.book.q, c);
            popped.Some? ==> Queued(s.book.q, popped.value) && popped.value in PopBook(s.book, c).slots
  {
    var popped := PoppedBy(s.book.q, c);
    if popped.Some? {
      PopTiers(s.book.q, c, popped.value);
      PopBookKeeps(s.book, c);
      assert At(PopBook(s.book, c), popped.value, STAGED);
    }
    hide Distinct, PlaceOk, SideOk, PcOk, CountOk, AfterPop, Promoted, PopBook;
  }

  /** What `_process_slot` does to rows up to its first suspension: it hands one over, or fails. */
  lemma StartRows(s: Sched, id: SlotId, i: Inputs)
    ensures var s' := StartSlot(s, id, i);
            if i.manifest == Invalid then Closing(s, s', {id})
            else SameQueue(s.book, s'.book) && s'.book.rows == s.book.rows && s'.book.reopened == s.book.reopened
                 && s'.book.writing == Some(id) && Awaited(s'.pc) == Some(id) && Upserting(s'.pc) == {id}
  {
    SlotWrites();
    WritingStays();
    WaysOutClose({id});
    hide RowsOut, Unwind, Advance;
  }

  lemma TakeUpRowStep(s: Sched, c: Config, i: Inputs, x: SlotId)
    requires Inv(s) && UpsOk(s, x) && ConfigOk(c) && Allowed(s, Worker(i)) && s.pc.Head? && !s.stop
    requires var popped, slots := PoppedBy(s.book.q, c), PopBook(s.book, c).slots;
             popped.Some? && !(popped.value in slots && slots[popped.value].evicted)
    ensures RowStep(s, FromHead(s, c, i), Worker(i), x)
  {
    var b, id, s' := PopBook(s.book, c), PoppedBy(s.book.q, c).value, FromHead(s, c, i);
    ResumeKeeps(s, c, i);
    PopRows(s.book, c);
    PopShrinks(s, c, x);
    PoppedWasQueued(s, c);
    StartRows(s.(book := b, activeSlot := Some(id), latest := None), id, i);
    hide Core, PopBook, StartSlot, RowStep, RowsOut, QueueShrinks;
    if i.manifest == Invalid {
      PoppedIsOut(s, c, x);
      ClosingRowStep(s, b, s', {id}, Worker(i), x);
    } else {
      SameShrinks(s.book, b, s'.book, x);
      QuietRowStep(s, s', Worker(i), x);
    }
  }

  lemma SameShrinks(b: Book, b1: Book, b2: Book, x: SlotId)
    requires QueueShrinks(b, b1, x) && SameQueue(b1, b2)
    ensures QueueShrinks(b, b2, x)
  {
  }

  /** The popped slot is neither queued nor evicted. */
  lemma PoppedIsOut(s: Sched, c: Config, x: SlotId)
    requires Inv(s) && ConfigOk(c) && s.pc.Head? && PoppedBy(s.book.q, c).Some?
    ensures Tracked(PopBook(s.book, c), x) ==> x !in {PoppedBy(s.book.q, c).value}
  {
    PopBookKeeps(s.book, c);
    assert PlaceOk(PopBook(s.book, c), PopHand(s.book, c), x);
    hide Distinct, LegalHistory, SideOk, PcOk, CountOk, PopBook;
  }

  lemma HeadRowStep(s: Sched, c: Config, i: Inputs, x: SlotId)
    requires Inv(s) && UpsOk(s, x) && ConfigOk(c) && Allowed(s, Worker(i)) && s.pc.Head?
    ensures RowStep(s, FromHead(s, c, i), Worker(i), x)
  {
    var b, popped, s' := PopBook(s.book, c), PoppedBy(s.book.q, c), FromHead(s, c, i);
    if !s.stop && popped.Some? && !(popped.value in b.slots && b.slots[popped.value].evicted) {
      TakeUpRowStep(s, c, i, x);
    } else {
      ResumeKeeps(s, c, i);
      QuietHead(s, c, i, x);
      hide Inv, RowStep, FromHead, Quiet, QueueShrinks;
      QuietRowStep(s, s', Worker(i), x);
    }
  }

  lemma QuietHead(s: Sched, c: Config, i: Inputs, x: SlotId)
    requires Inv(s) && ConfigOk(c) && s.pc.Head?
    requires var popped, slots := PoppedBy(s.book.q, c), PopBook(s.book, c).slots;
             s.stop || popped.None? || (popped.value in slots && slots[popped.value].evicted)
    ensures Quiet(s, FromHead(s, c, i)) && QueueShrinks(s.book, FromHead(s, c, i).book, x) && s.book.writing.None?
  {
    PopRows(s.book, c);
    PopShrinks(s, c, x);
    PoppedWasQueued(s, c);
    hide Core, PopBook, StartSlot, Popped;
  }

  // ---- every event ----

  lemma WorkerRowStep(s: Sched, c: Config, i: Inputs, x: SlotId)
    requires Inv(s) && UpsOk(s, x) && ConfigOk(c) && Allowed(s, Worker(i))
    ensures RowStep(s, Resume(s, c, i), Worker(i), x)
  {
    hide Core, RowStep, UpsOk;
    if s.book.writing.Some? {
      CancelledRest(s, c, i);
      SameBookStep(s, Resume(s, c, i), Worker(i), x);
    } else if s.pc.Head? {
      HeadRowStep(s, c, i, x);
    } else if s.pc.GraceTop? {
      GraceTopRowStep(s, c, i, x);
    } else {
      InnerRowStep(s, c, i, x);
    }
    hide FromHead, FromGraceTop;
  }

  /** A cancellation writes no row; it hands over that of a follow-up that was being served. */
  lemma CancelRowStep(s: Sched, x: SlotId)
    requires Inv(s) && UpsOk(s, x) && !s.pc.GraceTop?
    ensures RowStep(s, Cancel(s), ShutdownAsked, x)
  {
    hide RowStep;
    if s.pc.MatchServe? {
      CancelKeeps(s);
      CancelQuiet(s);
      hide Inv, Cancel;
      QuietRowStep(s, Cancel(s), ShutdownAsked, x);
    } else {
      CancelSameBook(s);
      hide Core, Cancel;
      SameBookStep(s, Cancel(s), ShutdownAsked, x);
    }
  }

  lemma CancelQuiet(s: Sched)
    requires Inv(s) && s.pc.MatchServe?
    ensures Quiet(s, Cancel(s)) && SameQueue(s.book, Cancel(s).book) && s.book.writing.None?
  {
    hide Core;
    var s' := Cancel(s);
    assert s'.book.writing == Some(s.pc.m) && s'.book.rows == s.book.rows && s'.book.reopened == s.book.reopened
        && SameQueue(s.book, s'.book) by {
      SlotWrites();
      hide Settle, Move, WritingOk;
    }
    assert s'.pc == MatchCancel(s.pc.id, s.pc.m);
    hide Cancel;
  }

  lemma CancelSameBook(s: Sched)
    requires !s.pc.MatchServe? && !s.pc.GraceTop?
    ensures Cancel(s).book == s.book && (!s.pc.Drift? ==> Upserting(Cancel(s).pc) == {})
  {
  }

  lemma LetInRows(b: Book, id: SlotId, slot: Slot, q: QueueState, now: int, x: SlotId)
    requires id !in b.rows && slot.pid.None? && slot.trail != [] && LetInAs(slot) == slot.state
    requires x != id && Queued(q, x) ==> Queued(b.q, x)
    ensures LetInOnly(b, LetIn(b, id, slot, q, now), id, now, x)
  {
  }

  /** The slot `id` was let in with a fresh row, and `x` is as it was. */
  predicate LetInOnly(b: Book, b': Book, id: SlotId, now: int, x: SlotId) {
    && b' == b.(q := b'.q, slots := b'.slots, rows := b'.rows)
    && id in b'.slots && b'.slots == b.slots[id := b'.slots[id]]
    && FreshRow(b', id, now) && b'.rows.Keys == b.rows.Keys + {id}
    && (x != id && x in b.rows ==> b'.rows[x] == b.rows[x])
    && (x != id && Queued(b'.q, x) ==> Queued(b.q, x))
  }

  /** A request is refused, or lets in its own slot with a fresh row. */
  lemma SubmitRows(s: Sched, c: Config, e: Event, x: SlotId)
    requires Inv(s) && e.Request? && e.id !in s.book.slots
    ensures var b' := Submit(s, c, e.id, e.threadId, e.modelTag, e.keepAlive, e.wait).book;
            b' == s.book || LetInOnly(s.book, b', e.id, s.now, x)
  {
    var b, q := s.book, s.book.q;
    assert PlaceOk(b, Hand(s.pc), e.id);
    hide Inv, LetIn, PlaceOk, LetInOnly, Admit;
    var slot, a := NewSlot(e.modelTag, e.threadId, e.keepAlive, e.wait), Admit(q, c.stagingMax, c.acceptanceMax);
    LetInRows(b, e.id, Moved(slot, STAGED), q.(staging := [e.id] + q.staging), s.now, x);
    LetInRows(b, e.id, Moved(slot, STAGED), AfterEnqueue(q, e.id, a), s.now, x);
    LetInRows(b, e.id, Moved(slot, ACCEPT_BUFFER), AfterEnqueue(q, e.id, a), s.now, x);
  }

  /** Nothing that concerns the row of `x` changes. */
  predicate RowUntouched(s: Sched, s': Sched, x: SlotId) {
    && s'.pc == s.pc && s'.book.writing == s.book.writing && s'.book.reopened == s.book.reopened
    && (x in s.book.slots <==> x in s'.book.slots) && (x in s.book.rows <==> x in s'.book.rows)
    && (x in s.book.slots && x in s'.book.slots ==> s'.book.slots[x].state == s.book.slots[x].state)
    && (x in s.book.rows && x in s'.book.rows ==> s'.book.rows[x] == s.book.rows[x])
    && (Queued(s'.book.q, x) ==> Queued(s.book.q, x)) && s'.book.gone == s.book.gone
  }

  lemma UntouchedRowStep(s: Sched, s': Sched, e: Event, x: SlotId)
    requires Inv(s) && UpsOk(s, x) && NoWrite(s, e) && RowUntouched(s, s', x)
    ensures RowStep(s, s', e, x)
  {
    if Watched(s, x) {
      WatchedRow(s, x);
    }
    hide Inv, Upserting;
  }

  lemma FreshRowStep(s: Sched, s': Sched, e: Event, x: SlotId)
    requires Inv(s) && NoWrite(s, e) && x !in s.book.slots && FreshRow(s'.book, x, s.now)
    requires s'.pc == s.pc && s'.book.writing == s.book.writing && s'.book.reopened == s.book.reopened
    requires s'.book.gone == s.book.gone
    ensures RowStep(s, s', e, x)
  {
    assert PlaceOk(s.book, Hand(s.pc), x);
    UpsertingInHand(s.pc);
    WritingInHand(s);
    hide Core, LegalHistory, Upserting, Hand;
  }

  lemma UpsertingInHand(pc: Pc)
    ensures Upserting(pc) <= Hand(pc)
  {
  }

  lemma SubmitRowStep(s: Sched, c: Config, e: Event, x: SlotId)
    requires Inv(s) && UpsOk(s, x) && e.Request? && e.id !in s.book.slots
    ensures RowStep(s, Submit(s, c, e.id, e.threadId, e.modelTag, e.keepAlive, e.wait), e, x)
  {
    var s' := Submit(s, c, e.id, e.threadId, e.modelTag, e.keepAlive, e.wait);
    assert s'.pc == s.pc;
    SubmitRows(s, c, e, x);
    hide Submit, LegalHistory, RowStep, Inv, UpsOk;
    if x == e.id && s'.book != s.book {
      FreshRowStep(s, s', e, x);
    } else {
      UntouchedRowStep(s, s', e, x);
    }
  }

  /** The thread's write. */
  lemma WrittenRowStep(s: Sched, e: Event, x: SlotId)
    requires Inv(s) && UpsOk(s, x) && e.RowWritten?
    ensures RowStep(s, s.(book := Landed(s.book, s.now)), e, x)
  {
    if Watched(s, x) {
      WatchedRow(s, x);
    }
    WritingInHand(s);
    if s.book.writing.Some? {
      HandFacts(s.book, Hand(s.pc), s.book.writing.value);
    }
    hide Inv, Upserting, Hand, LegalHistory;
  }

  /** A sweep, with the thread's write before its UPDATEs or without. */
  lemma SweepRowStep(s: Sched, e: Event, x: SlotId)
    requires Inv(s) && UpsOk(s, x) && e.Sweep? && IsSweep(s.book.rows, e.cutoff, e.ids)
    ensures RowStep(s, s.(book := Swept(if e.between then Landed(s.book, s.now) else s.book, e.ids, s.now)), e, x)
  {
    assert x in e.ids ==> x in Stale(s.book.rows, e.cutoff);
    assert PlaceOk(s.book, Hand(s.pc), x);
    assert x in e.ids ==> x in s.book.slots;
    hide Inv, PlaceOk, UpsOk, RowStep, Landed, Swept;
    if e.between {
      WrittenRowStep(s, RowWritten, x);
      UpdateRowStep(s, s.(book := Landed(s.book, s.now)), RowWritten, e, x);
    } else {
      UntouchedRowStep(s, s, GiveUp(x), x);
      UpdateRowStep(s, s, GiveUp(x), e, x);
    }
  }

  /** The UPDATEs, after what happened since the SELECT. */
  lemma UpdateRowStep(s: Sched, s': Sched, since: Event, e: Event, x: SlotId)
    requires RowStep(s, s', since, x) && !since.Sweep? && s'.now == s.now
    requires e.Sweep? && Lands(s, e) == Lands(s, since) && (x in e.ids ==> x in s.book.slots)
    ensures RowStep(s, s'.(book := Swept(s'.book, e.ids, s.now)), e, x)
  {
    hide Upserting;
  }

  /** The other tasks' events touch no row. */
  lemma OtherRowStep(s: Sched, c: Config, e: Event, x: SlotId)
    requires Inv(s) && UpsOk(s, x) && IsOther(e) && !e.Request?
    ensures RowStep(s, Step(s, c, e), e, x)
  {
    hide Inv, UpsOk, RowStep;
    assert RowUntouched(s, Step(s, c, e), x) by {
      hide TakeIdle, StartTerm, Kill;
    }
    hide Step, RowUntouched;
    UntouchedRowStep(s, Step(s, c, e), e, x);
  }

  lemma StepRows(s: Sched, c: Config, e: Event, x: SlotId)
    requires Inv(s) && UpsOk(s, x) && ConfigOk(c) && Allowed(s, e)
    ensures RowStep(s, Step(s, c, e), e, x)
  {
    match e
    case Worker(i) => WorkerRowStep(s, c, i, x);
    case ShutdownAsked => CancelRowStep(s, x);
    case Request(_, _, _, _, _) => SubmitRowStep(s, c, e, x);
    case RowWritten => WrittenRowStep(s, e, x);
    case Sweep(_, _, _) => SweepRowStep(s, e, x);
    case _ => OtherRowStep(s, c, e, x);
    hide Inv, UpsOk, RowStep, Resume, Cancel, Submit;
  }
}
