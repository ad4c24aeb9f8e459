/** Short runs that show where results end: sweeps that come for a slot still queued, for one whose row is about to be
    written and between SELECT and UPDATE of one being written; a spawn over a holder that was not emptied; and a slot
    that is evicted after it was let in through the acceptance buffer. */
module SchedulerWitness {
  import opened Wrappers
  import opened Fsm
  import opened Slots
  import opened Queue
  import opened StateDb
  import opened Timers
  import opened Scheduler
  import opened SchedulerInvariant
  import opened SchedulerTheorems

  const TIGHT := Config(1, 1, 30, 3, 60, 1)
  const NO_MANIFEST := Inputs(Missing, Yes, None, Yes, true, true)
  const BAD_MANIFEST := Inputs(Invalid, Yes, None, Yes, true, true)

  function Last(c: Config, events: seq<Event>): Sched {
    StateAt(c, events, |events|)
  }

  lemma {:induction false} StatesExtend(s: Sched, c: Config, events: seq<Event>, e: Event)
    requires IsRun(s, c, events) && Allowed(States(s, c, events)[|events|], e)
    ensures IsRun(s, c, events + [e])
    ensures States(s, c, events + [e])[|events| + 1] == Step(States(s, c, events)[|events|], c, e)
    decreases events
  {
    hide Allowed, Step;
    if events == [] {
      assert [e][1..] == [];
    } else {
      assert (events + [e])[1..] == events[1..] + [e];
      StatesExtend(Step(s, c, events[0]), c, events[1..], e);
    }
  }

  /** One more event. */
  lemma More(c: Config, events: seq<Event>, e: Event)
    requires RunOf(c, events) && Allowed(Last(c, events), e)
    ensures RunOf(c, events + [e]) && Last(c, events + [e]) == Step(Last(c, events), c, e)
  {
    StatesExtend(Init(), c, events, e);
  }

  lemma Start(c: Config)
    requires ConfigOk(c)
    ensures RunOf(c, []) && Last(c, []) == Init()
  {
  }

  const ASK := Request(0, "t", "m", None, false)

  /** The first request is staged. */
  lemma Asked(c: Config)
    requires ConfigOk(c)
    ensures RunOf(c, [ASK])
    ensures var s := Last(c, [ASK]);
            && s == Init().(book := s.book)
            && s.book == LetIn(Init().book, 0, Moved(NewSlot("m", "t", None, false), STAGED), QueueState([0], [],
                  false), 0)
  {
    Start(c);
    More(c, [], ASK);
    assert [] + [ASK] == [ASK];
    assert [] + [0] == [0];
  }

  /** Popping the only slot. */
  lemma PopOne(b: Book, c: Config)
    requires ConfigOk(c) && b.q == QueueState([0], [], false)
    ensures Popped(b.q, c.stagingMax) == Some(0)
    ensures 0 in b.slots && !b.slots[0].disconnected ==> PopBook(b, c) == b.(q := QueueState([], [], false))
  {
    assert b.q.staging + Promoted(b.q, c.stagingMax) == [0];
  }

  const ASK_AGAIN := Request(1, "u", "m", None, false)

  const ROOMY := Config(2, 1, 30, 3, 60, 1)
  const LOAD := Worker(NO_MANIFEST)

  /** A step in which a process is spawned, if one is to be, the health wait raises and SIGTERM answers so. */
  function Turn(spawn: Option<Pid>, termReturned: bool): Event {
    Worker(Inputs(Missing, Yes, spawn, Raises, true, termReturned))
  }

  const SPAWN := Turn(Some(7), true)

  /** One slot is loading on process 7, the other is queued with this row; no window is open. */
  predicate Behind(s: Sched, r: Row) {
    && s.pc == HealthWait(0) && !s.stop && s.grace == Stopped && s.activeSlot == Some(0)
    && s.side.active == Some(7) && s.side.idle.None? && s.side.procs == map[7 := Proc("m", true, false)]
    && s.book.slots.Keys == {0, 1} && s.book.rows.Keys == {0, 1} && s.book.q == QueueState([1], [], false)
    && s.book.slots[0].state == LOADING && s.book.slots[0].pid == Some(7)
    && s.book.slots[1].state == STAGED && !s.book.slots[1].disconnected && !s.book.slots[1].evicted
    && s.book.rows[0].state == LOADING && s.book.rows[1] == r && s.book.writing.None? && !s.book.reopened
  }

  const WAITING := Row(STAGED, None, 0, None, None)

  lemma LoadsFirst(s: Sched, c: Config)
    requires ConfigOk(c) && s == Init().(book := s.book)
    requires s.book == LetIn(Init().book, 0, Moved(NewSlot("m", "t", None, false), STAGED), QueueState([0], [],
              false), 0)
    ensures var s' := Step(s, c, LOAD);
            && s'.pc == LoadAudit(0) && s'.side == s.side && s'.activeSlot == Some(0) && s'.grace == s.grace
            && s'.now == 0 && !s'.stop && s'.book.q == QueueState([], [], false)
            && s'.book.slots.Keys == {0} && s'.book.slots[0].state == LOADING && s'.book.slots[0].modelTag == "m"
            && s'.book.rows == s.book.rows && s'.book.writing == Some(0) && !s'.book.reopened
  {
    PopOne(s.book, c);
  }

  const FIRST := [ASK, LOAD, RowWritten, SPAWN]

  /** The first slot is loading on process 7. */
  lemma OneSpawned()
    ensures RunOf(ROOMY, FIRST)
    ensures var s := Last(ROOMY, FIRST);
            && s.pc == HealthWait(0) && !s.stop && s.now == 0 && s.grace == Stopped && s.activeSlot == Some(0)
            && s.side.active == Some(7) && s.side.idle.None? && s.side.procs == map[7 := Proc("m", true, false)]
            && s.book.slots.Keys == {0} && s.book.rows.Keys == {0} && s.book.q == QueueState([], [], false)
            && s.book.slots[0].state == LOADING && s.book.slots[0].pid == Some(7)
            && s.book.rows[0].state == LOADING && s.book.writing.None? && !s.book.reopened
  {
    hide RunOf, Allowed;
    OneLoading();
    hide Last;
    MoreOf(ROOMY, [ASK, LOAD], RowWritten, [ASK, LOAD, RowWritten]);
    MoreOf(ROOMY, [ASK, LOAD, RowWritten], SPAWN, FIRST);
  }

  lemma OneLoading()
    ensures RunOf(ROOMY, [ASK, LOAD])
    ensures var s := Last(ROOMY, [ASK, LOAD]);
            && s.pc == LoadAudit(0) && s.side == Init().side && s.activeSlot == Some(0) && s.grace == Stopped
            && s.now == 0 && !s.stop && s.book.q == QueueState([], [], false)
            && s.book.slots.Keys == {0} && s.book.slots[0].state == LOADING && s.book.slots[0].modelTag == "m"
            && s.book.rows.Keys == {0} && s.book.rows[0].endedAt.None? && s.book.writing == Some(0)
            && !s.book.reopened
  {
    hide RunOf, Allowed;
    Asked(ROOMY);
    LoadsFirst(Last(ROOMY, [ASK]), ROOMY);
    hide Last;
    MoreOf(ROOMY, [ASK], LOAD, [ASK, LOAD]);
  }

  const BOTH := FIRST + [ASK_AGAIN]

  lemma BothAsked()
    ensures RunOf(ROOMY, BOTH) && Behind(Last(ROOMY, BOTH), WAITING) && Last(ROOMY, BOTH).now == 0
  {
    hide RunOf, Allowed;
    OneSpawned();
    hide Last;
    MoreOf(ROOMY, FIRST, ASK_AGAIN, BOTH);
    assert [] + [1] == [1];
  }

  /** One more event that is allowed. */
  lemma MoreOf(c: Config, events: seq<Event>, e: Event, next: seq<Event>)
    requires RunOf(c, events) && Allowed(Last(c, events), e) && next == events + [e]
    ensures RunOf(c, next) && Last(c, next) == Step(Last(c, events), c, e)
  {
    More(c, events, e);
  }

  const BACK := Turn(None, true)

  /** The health wait raises: the finally block sends SIGTERM. */
  lemma HealthRaises(s: Sched, c: Config)
    requires s.pc == HealthWait(0) && s.side.active == Some(7) && s.side.idle.None? && Alive(s.side, 7)
    ensures Step(s, c, BACK) == s.(activeSlot := None, side := StartTerm(s.side, 7), pc := FinTerm(Raised(0)))
  {
  }

  /** The call returns: the holder is emptied and the slot forced cold. */
  lemma TermReturns(s: Sched, c: Config)
    requires s.pc == FinTerm(Raised(0)) && s.side.active == Some(7) && s.activeSlot.None?
    requires 0 in s.book.slots && 1 in s.book.slots && s.book.rows.Keys == {0, 1}
    ensures var s' := Step(s, c, BACK);
            && s'.pc == FcAudit && s'.side.idle == s.side.idle && s'.stop == s.stop && s'.now == s.now
            && s'.side.procs.Keys == s.side.procs.Keys && s'.book.q == s.book.q
            && s'.book.slots.Keys == s.book.slots.Keys && s'.book.slots[1] == s.book.slots[1]
            && s'.book.rows.Keys == {0, 1} && s'.book.rows[1] == s.book.rows[1] && s'.book.rows[0].state == COLD
            && s'.book.writing == s.book.writing && s'.book.reopened == s.book.reopened
  {
    hide ColdWalk, Walked;
  }

  /** The second slot is taken up; its row is handed to a thread as it is. */
  lemma TakesSecond(s: Sched, c: Config)
    requires ConfigOk(c) && s.pc == Head && !s.stop && s.side.idle.None? && s.book.q == QueueState([1], [], false)
    requires 1 in s.book.slots && s.book.slots[1].state == STAGED && !s.book.slots[1].disconnected
              && !s.book.slots[1].evicted
    ensures var s' := Step(s, c, LOAD);
            && s'.pc == LoadAudit(1) && s'.side == s.side && s'.now == s.now
            && s'.book.slots.Keys == s.book.slots.Keys && s'.book.slots[1].state == LOADING
            && s'.book.slots[1].pid == s.book.slots[1].pid
            && s'.book.rows == s.book.rows && s'.book.writing == Some(1) && s'.book.reopened == s.book.reopened
            && !Queued(s'.book.q, 1)
  {
    assert s.book.q.staging + Promoted(s.book.q, c.stagingMax) == [1];
  }

  lemma HeadAgain(s: Sched, c: Config)
    requires s.pc == FcAudit
    ensures Step(s, c, BACK) == s.(pc := Head)
  {
  }

  /** The second slot has just been taken up: its row is in a thread's hand and still this one. */
  predicate TakenUp(s: Sched, r: Row) {
    && s.pc == LoadAudit(1) && s.side.idle.None? && s.side.procs.Keys == {7} && s.book.slots.Keys == {0, 1}
    && s.book.slots[1].state == LOADING && s.book.slots[1].pid.None? && !Queued(s.book.q, 1)
    && s.book.rows.Keys == {0, 1} && s.book.rows[0].state == COLD && s.book.rows[1] == r
    && s.book.writing == Some(1) && !s.book.reopened
  }

  const FAILS := [BACK, BACK, BACK, LOAD]

  /** The load fails, and the worker takes the waiting request up. */
  lemma FailsOver(events: seq<Event>, r: Row)
    requires RunOf(ROOMY, events) && Behind(Last(ROOMY, events), r) && Last(ROOMY, events).book.slots[1].pid.None?
    ensures RunOf(ROOMY, events + FAILS) && TakenUp(Last(ROOMY, events + FAILS), r)
    ensures Last(ROOMY, events + FAILS).now == Last(ROOMY, events).now
  {
    hide RunOf, Resume;
    var e1 := events + [BACK];
    var e2 := e1 + [BACK];
    var e3 := e2 + [BACK];
    HealthRaises(Last(ROOMY, events), ROOMY);
    More(ROOMY, events, BACK);
    TermReturns(Last(ROOMY, e1), ROOMY);
    More(ROOMY, e1, BACK);
    HeadAgain(Last(ROOMY, e2), ROOMY);
    More(ROOMY, e2, BACK);
    TakesSecond(Last(ROOMY, e3), ROOMY);
    More(ROOMY, e3, LOAD);
    assert events + FAILS == e3 + [LOAD];
  }

  const LATE := BOTH + [Elapse(61)]

  lemma WaitsLong()
    ensures RunOf(ROOMY, LATE) && Behind(Last(ROOMY, LATE), WAITING) && Last(ROOMY, LATE).now == 61
    ensures Last(ROOMY, LATE).book.slots[1].pid.None?
  {
    BothAsked();
    More(ROOMY, BOTH, Elapse(61));
    hide RunOf;
    assert Last(ROOMY, BOTH).book.slots[1].pid.None? by {
      SecondHasNoProcess();
    }
  }

  lemma SecondHasNoProcess()
    ensures RunOf(ROOMY, BOTH) && 1 in Last(ROOMY, BOTH).book.slots && Last(ROOMY, BOTH).book.slots[1].pid.None?
  {
    BothAsked();
    var s := Last(ROOMY, BOTH);
    ReachedOk(ROOMY, BOTH, |BOTH|);
    assert PlaceOk(s.book, Hand(s.pc), 1);
    hide PcOk, SideOk, Distinct, LegalHistory;
  }

  const SWEEP := Sweep({1}, 1, false)

  /** A sweep of the smallest age takes the row of a request that waits while another one loads for a minute. When the
      load fails and the worker takes the request up, its ended row is reopened. */
  lemma UntimelySweepReopensRow()
    ensures var events := LATE + [SWEEP] + FAILS + [RowWritten];
            RunOf(ROOMY, events) && Last(ROOMY, events).book.reopened
    ensures Queued(Last(ROOMY, LATE).book.q, 1)
  {
    SweptWhileWaiting();
    hide RunOf, Resume, Behind;
    FailsOver(LATE + [SWEEP], TAKEN);
    More(ROOMY, LATE + [SWEEP] + FAILS, RowWritten);
  }

  const TAKEN := EndedRow(WAITING, "background_sweeper_evicted", 61)

  lemma SweptWhileWaiting()
    ensures RunOf(ROOMY, LATE + [SWEEP]) && Behind(Last(ROOMY, LATE + [SWEEP]), TAKEN)
    ensures Last(ROOMY, LATE + [SWEEP]).book.slots[1].pid.None? && Queued(Last(ROOMY, LATE).book.q, 1)
  {
    WaitsLong();
    hide RunOf;
    assert Stale(Last(ROOMY, LATE).book.rows, 1) == {1};
    hide Last;
    More(ROOMY, LATE, SWEEP);
  }

  /** The sweep comes after the worker has taken the request up, before the thread has written its row: the write
      reopens it, though no queued slot's row was taken. */
  lemma SweepInHandReopensRow()
    ensures var events := LATE + FAILS + [SWEEP] + [RowWritten];
            RunOf(ROOMY, events) && Last(ROOMY, events).book.reopened
    ensures !Queued(Last(ROOMY, LATE + FAILS).book.q, 1)
  {
    WaitsLong();
    FailsOver(LATE, WAITING);
    hide RunOf, Resume, Behind;
    var s := Last(ROOMY, LATE + FAILS);
    assert Stale(s.book.rows, 1) == {1};
    More(ROOMY, LATE + FAILS, SWEEP);
    More(ROOMY, LATE + FAILS + [SWEEP], RowWritten);
  }

  const BETWEEN := Sweep({1}, 1, true)
  const SPAWN_AGAIN := Turn(Some(8), true)
  const HEALTHY := Worker(NO_MANIFEST)

  const CROSSED := LATE + FAILS + [BETWEEN]

  /** A LOADING row is ended. */
  lemma SweptBetween()
    ensures RunOf(ROOMY, CROSSED)
    ensures var s := Last(ROOMY, CROSSED);
            && s.pc == LoadAudit(1) && s.side.idle.None? && s.side.procs.Keys == {7} && s.book.writing.None?
            && 1 in s.book.slots && s.book.slots[1].state == LOADING
            && 1 in s.book.rows && s.book.rows[1].state == COLD && s.book.rows[1].endedAt.Some?
  {
    WaitsLong();
    FailsOver(LATE, WAITING);
    hide RunOf, Behind;
    assert Stale(Last(ROOMY, LATE + FAILS).book.rows, 1) == {1};
    More(ROOMY, LATE + FAILS, BETWEEN);
  }

  /** The thread writes between the sweep's SELECT and its UPDATE: a LOADING row is ended, and the write at ACTIVE
      reopens it. */
  lemma SweepBetweenReopensRow()
    ensures var events := CROSSED + [SPAWN_AGAIN] + [HEALTHY] + [RowWritten];
            RunOf(ROOMY, events) && Last(ROOMY, events).book.reopened
  {
    SweptBetween();
    hide RunOf, Last;
    More(ROOMY, CROSSED, SPAWN_AGAIN);
    More(ROOMY, CROSSED + [SPAWN_AGAIN], HEALTHY);
    More(ROOMY, CROSSED + [SPAWN_AGAIN] + [HEALTHY], RowWritten);
  }

  // ---- a spawn over a filled holder ----

  const RAISE := Turn(None, false)

  /** The finally block's call raises, so the handler fails the caller and tears down. */
  lemma FirstRaise(s: Sched, c: Config)
    requires s.pc == FinTerm(Raised(0)) && s.side.active == Some(7) && 7 in s.side.procs
    requires 0 in s.book.slots && 1 in s.book.slots
    ensures var s' := Step(s, c, RAISE);
            && s'.pc == TdTerm(0, Uncaught) && s'.side.active == Some(7) && s'.side.idle == s.side.idle
            && s'.side.procs.Keys == s.side.procs.Keys && s'.stop == s.stop && s'.activeSlot == s.activeSlot
            && s'.book.q == s.book.q && s'.book.slots.Keys == s.book.slots.Keys
            && s'.book.slots[1] == s.book.slots[1] && s'.book.slots[0].pid == s.book.slots[0].pid
  {
  }

  /** The teardown's call raises. */
  lemma SecondRaise(s: Sched, c: Config)
    requires s.pc == TdTerm(0, Uncaught) && s.side.active == Some(7) && 7 in s.side.procs && s.activeSlot.None?
    requires 0 in s.book.slots && s.book.slots[0].pid == Some(7)
    ensures var s' := Step(s, c, RAISE);
            && s'.pc == FcTerm(0) && s'.side.active == Some(7) && s'.side.idle == s.side.idle
            && s'.side.procs.Keys == s.side.procs.Keys && s'.stop == s.stop && s'.book == s.book
  {
    hide Freeze;
  }

  /** So does the last one: the process stays in the holder. */
  lemma LastRaise(s: Sched, c: Config)
    requires s.pc == FcTerm(0) && s.side.active == Some(7) && 0 in s.book.slots && 1 in s.book.slots
    ensures var s' := Step(s, c, RAISE);
            && s'.pc == FcAudit && s'.side.active == Some(7) && s'.side.idle == s.side.idle
            && s'.side.procs.Keys == s.side.procs.Keys && s'.stop == s.stop && s'.book.q == s.book.q
            && 1 in s'.book.slots && s'.book.slots[1] == s.book.slots[1]
  {
    hide ColdWalk, Walked;
  }

  /** The next slot is spawned over it. */
  lemma SpawnsOver(s: Sched, c: Config)
    requires s.pc == LoadAudit(1) && s.side.idle.None?
    ensures Step(s, c, Turn(Some(8), true)).side.procs.Keys == s.side.procs.Keys + {8}
  {
    hide SetPid;
  }

  const TWICE := BOTH + [BACK] + [RAISE] + [RAISE]

  lemma RaiseTwice()
    ensures RunOf(ROOMY, TWICE)
    ensures var s := Last(ROOMY, TWICE);
            && s.pc == FcTerm(0) && !s.stop && s.side.idle.None? && s.side.active == Some(7)
            && s.side.procs.Keys == {7} && s.book.q == QueueState([1], [], false)
            && s.book.slots.Keys == {0, 1} && s.book.slots[1].state == STAGED
            && !s.book.slots[1].disconnected && !s.book.slots[1].evicted
  {
    BothAsked();
    hide RunOf, Resume, Last;
    HealthRaises(Last(ROOMY, BOTH), ROOMY);
    More(ROOMY, BOTH, BACK);
    FirstRaise(Last(ROOMY, BOTH + [BACK]), ROOMY);
    More(ROOMY, BOTH + [BACK], RAISE);
    SecondRaise(Last(ROOMY, BOTH + [BACK] + [RAISE]), ROOMY);
    More(ROOMY, BOTH + [BACK] + [RAISE], RAISE);
  }

  const STUCK := TWICE + [RAISE] + [BACK]

  /** All three calls raise, and the worker goes on with the process still in the holder. */
  lemma AllRaise()
    ensures RunOf(ROOMY, STUCK)
    ensures var s := Last(ROOMY, STUCK);
            && s.pc == Head && !s.stop && s.side.idle.None? && s.side.active == Some(7) && s.side.procs.Keys == {7}
            && s.book.q == QueueState([1], [], false) && 1 in s.book.slots && s.book.slots[1].state == STAGED
            && !s.book.slots[1].disconnected && !s.book.slots[1].evicted
  {
    RaiseTwice();
    hide RunOf, Resume, Last;
    LastRaise(Last(ROOMY, TWICE), ROOMY);
    More(ROOMY, TWICE, RAISE);
    HeadAgain(Last(ROOMY, TWICE + [RAISE]), ROOMY);
    More(ROOMY, TWICE + [RAISE], BACK);
  }

  const RAISES := STUCK + [LOAD] + [RowWritten]

  /** A run that spawns process 8 while the active holder still keeps process 7, whose SIGTERM calls raised. */
  lemma SpawnFindsHolderFilled()
    ensures RunOf(ROOMY, RAISES + [SPAWN_AGAIN])
    ensures var s, s' := Last(ROOMY, RAISES), Last(ROOMY, RAISES + [SPAWN_AGAIN]);
            s.side.active == Some(7) && 8 !in s.side.procs && 8 in s'.side.procs
  {
    AllRaise();
    hide RunOf, Resume, Last;
    TakesSecond(Last(ROOMY, STUCK), ROOMY);
    More(ROOMY, STUCK, LOAD);
    More(ROOMY, STUCK + [LOAD], RowWritten);
    SpawnsOver(Last(ROOMY, RAISES), ROOMY);
    More(ROOMY, RAISES, SPAWN_AGAIN);
  }

  // ---- an evicted slot that was buffered ----

  const TURN := Worker(BAD_MANIFEST)

  /** With both tiers of one slot, the second request is buffered and its client goes away. */
  lemma AskedTwice()
    ensures var events := [ASK, ASK_AGAIN, Disconnect(1)];
            RunOf(TIGHT, events) && Waiting(Last(TIGHT, events))
  {
    Asked(TIGHT);
    var s1 := Last(TIGHT, [ASK]);
    More(TIGHT, [ASK], ASK_AGAIN);
    assert Admit(s1.book.q, 1, 1) == Buffered;
    var s2 := Last(TIGHT, [ASK] + [ASK_AGAIN]);
    assert [] + [1] == [1];
    assert s2.book.q == QueueState([0], [1], false);
    More(TIGHT, [ASK] + [ASK_AGAIN], Disconnect(1));
    assert [ASK] + [ASK_AGAIN] + [Disconnect(1)] == [ASK, ASK_AGAIN, Disconnect(1)];
  }

  predicate Waiting(s: Sched) {
    && s.pc == Head && !s.stop && s.side.active.None? && s.side.idle.None?
    && s.book.q == QueueState([0], [1], false) && 0 in s.book.slots && 1 in s.book.slots
    && s.book.slots[0].state == STAGED && !s.book.slots[0].disconnected && !s.book.slots[0].evicted
    && s.book.slots[1].disconnected && !s.book.slots[1].evicted && s.book.gone == []
    && 1 in s.book.rows && s.book.rows[1].state == ACCEPT_BUFFER && s.book.rows[1].endedAt.None?
  }

  /** The first slot fails; the second is promoted, which writes no row. */
  lemma FirstFails(s: Sched)
    requires Waiting(s)
    ensures var s' := Resume(s, TIGHT, BAD_MANIFEST);
            && s'.pc == FcAudit && !s'.stop && s'.book.q == QueueState([1], [], false) && s'.book.gone == []
            && 1 in s'.book.slots && s'.book.slots[1].disconnected && 1 in s'.book.rows
                  && s'.book.rows[1] == s.book.rows[1]
  {
    var b := PopBook(s.book, TIGHT);
    assert Promoted(s.book.q, 1) == [1] && s.book.q.staging + [1] == [0, 1];
    assert AllStaged(s.book.slots, [1]) == StageOne(s.book.slots, 1) by {
      assert [1][..0] == [] && AllStaged(s.book.slots, []) == s.book.slots;
    }
    assert b.q == QueueState([1], [], false) && b.slots[1].disconnected && !b.slots[0].evicted;
    hide PopBook, Popped, ColdWalk, Walked;
    assert Popped(s.book.q, 1) == Some(0) by {
      PopTwo(s.book.q);
    }
  }

  lemma PopTwo(q: QueueState)
    requires q == QueueState([0], [1], false)
    ensures Popped(q, 1) == Some(0)
  {
    assert (q.staging + Promoted(q, 1))[0] == 0;
  }

  /** The second is popped as evicted: it is counted and settled, its row is left as it was. */
  lemma SecondIsEvicted(s: Sched)
    requires s.pc == Head && !s.stop && s.book.q == QueueState([1], [], false) && s.book.gone == []
    requires 1 in s.book.slots && s.book.slots[1].disconnected
    ensures var s' := Resume(s, TIGHT, BAD_MANIFEST);
            s'.book.gone == [1] && s'.book.rows == s.book.rows
  {
    assert s.book.q.staging + Promoted(s.book.q, 1) == [1];
    assert [] + [1] == [1];
  }

  /** A slot let in through the acceptance buffer and evicted keeps a row that is open and not STAGED, which no
      sweep ever takes. */
  lemma EvictedBufferedRowStaysOpen(cutoff: int)
    ensures var events := [ASK, ASK_AGAIN, Disconnect(1), TURN, TURN, TURN];
            && RunOf(TIGHT, events)
            && var b := Last(TIGHT, events).book;
               b.gone == [1] && 1 in b.rows && b.rows[1].endedAt.None? && 1 !in Stale(b.rows, cutoff)
  {
    hide Resume, RunOf;
    var e3 := [ASK, ASK_AGAIN, Disconnect(1)];
    AskedTwice();
    FirstFails(Last(TIGHT, e3));
    More(TIGHT, e3, TURN);
    More(TIGHT, e3 + [TURN], TURN);
    assert Last(TIGHT, e3 + [TURN] + [TURN]) == Last(TIGHT, e3 + [TURN]).(pc := Head) by {
      AfterFreeze(Last(TIGHT, e3 + [TURN]));
    }
    SecondIsEvicted(Last(TIGHT, e3 + [TURN] + [TURN]));
    More(TIGHT, e3 + [TURN] + [TURN], TURN);
    assert e3 + [TURN] + [TURN] + [TURN] == [ASK, ASK_AGAIN, Disconnect(1), TURN, TURN, TURN];
  }

  lemma AfterFreeze(s: Sched)
    requires s.pc == FcAudit
    ensures Resume(s, TIGHT, BAD_MANIFEST) == s.(pc := Head)
  {
  }
}
