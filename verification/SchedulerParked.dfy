/** The parked process and the SIGTERM calls: who empties the idle holder, when its window runs out, and why a call
    starts. */
module SchedulerParked {
  import opened Wrappers
  import opened Fsm
  import opened Slots
  import opened Queue
  import opened QueueRuns
  import opened StateDb
  import opened Timers
  import opened Scheduler
  import opened SchedulerInvariant
  import opened SchedulerQueue
  import opened SchedulerFrames
  import opened SchedulerTheorems
  import opened SchedulerRows
  import opened SchedulerLoad
  import opened SchedulerVerdicts

  // ---- the idle holder ----

  /** The worker looks at the expiry: it found the queue empty, or has just counted an eviction. */
  predicate Looks(s: Sched, e: Event) {
    e.Worker? && ((s.pc.Head? && !s.stop && Line(s.book.q) == []) || s.pc.EvictAudit?)
  }

  predicate WindowOver(s: Sched) {
    s.side.idle.Some? && s.side.idleExpires.Some? && s.now >= s.side.idleExpires.value
  }

  /** What takes the parked process out of the idle holder. */
  predicate Empties(s: Sched, e: Event) {
    s.side.idle.Some? &&
    ((e.Worker? && s.pc.LoadAudit?) || (e == IdleTeardown && s.tasks > 0) || e == ShutdownCloses)
  }

  /** One event and the idle holder: it is emptied exactly by those three, the two tasks sending SIGTERM; it is filled
      only at the end of a grace loop; and a teardown task starts exactly when the worker looks and the window is over,
      which clears the expiry. Nothing else touches it. */
  predicate IdleStep(s: Sched, s': Sched, e: Event) {
    && (s'.tasks == s.tasks + 1 <==> Looks(s, e) && WindowOver(s))
    && (s'.tasks == s.tasks - 1 <==> e == IdleTeardown && s.tasks > 0)
    && s.tasks - 1 <= s'.tasks <= s.tasks + 1
    && (if Empties(s, e) then
          s'.side.idle.None? && s'.side.idleExpires.None? && (!e.Worker? ==> Terminating(s'.side, s.side.idle.value))
        else if s.side.idle.Some? then
          s'.side.idle == s.side.idle && s'.side.idleTag == s.side.idleTag
          && s'.side.idleExpires == (if Looks(s, e) && WindowOver(s) then None else s.side.idleExpires)
        else s'.side.idle.Some? ==> e.Worker? && s.pc.GraceTop? && !GoesOnLoop(s))
  }

  /** A grace loop that goes on. */
  predicate GoesOnLoop(s: Sched) {
    s.pc.GraceTop? && s.now < s.pc.deadline && !s.stop
  }

  // ---- SIGTERM ----

  /** Why a SIGTERM call for `p` starts: it was parked and the holder is emptied, or it is active and the worker is on
      its way out of a slot. */
  predicate TermCause(s: Sched, s': Sched, e: Event, p: Pid) {
    || (Empties(s, e) && s.side.idle == Some(p))
    || (s'.side.active == Some(p) && (s'.pc.TdTerm? || s'.pc.FinTerm? || s'.pc.FcTerm?))
  }

  ghost predicate TermStep(s: Sched, s': Sched, e: Event) {
    forall p: Pid :: Terminating(s'.side, p) && !Terminating(s.side, p) ==> TermCause(s, s', e, p)
  }

  /** A step that starts no call but one for the active process, on the way out. */
  ghost predicate OutTerm(s: Sched, s': Sched) {
    forall p: Pid :: Terminating(s'.side, p) && !Terminating(s.side, p) ==>
      s'.side.active == Some(p) && (s'.pc.TdTerm? || s'.pc.FinTerm? || s'.pc.FcTerm?)
  }

  /** The idle holder and its tasks are left alone. */
  predicate SameIdle(s: Sched, s': Sched) {
    SameHolder(s.side, s'.side) && s'.tasks == s.tasks
  }

  predicate SameHolder(d: Sidecars, d': Sidecars) {
    d'.idle == d.idle && d'.idleTag == d.idleTag && d'.idleExpires == d.idleExpires
  }

  lemma OutTerms()
    ensures forall s: Sched, how {:trigger Unwind(s, how)} :: OutTerm(s, Unwind(s, how)) && SameIdle(s, Unwind(s, how))
    ensures forall s: Sched, how {:trigger Leave(s, how)} :: OutTerm(s, Leave(s, how)) && SameIdle(s, Leave(s, how))
    ensures forall s: Sched, id {:trigger ForceCold(s, id)} ::
              OutTerm(s, ForceCold(s, id)) && SameIdle(s, ForceCold(s, id))
    ensures forall s: Sched, id, why {:trigger AfterTeardown(s, id, why)} ::
              OutTerm(s, AfterTeardown(s, id, why)) && SameIdle(s, AfterTeardown(s, id, why))
    ensures forall s: Sched, id, why {:trigger BeginTeardown(s, id, why)} ::
              OutTerm(s, BeginTeardown(s, id, why)) && SameIdle(s, BeginTeardown(s, id, why))
  {
    hide Freeze, Settle, Alive;
  }

  /** The end of a call starts none. */
  lemma EndTermStartsNone(d: Sidecars)
    ensures forall returned, p :: Terminating(EndActiveTerm(d, returned), p) <==> Terminating(d, p)
    ensures forall returned :: SameHolder(d, EndActiveTerm(d, returned))
  {
  }

  /** Calm both ways: no parked process is touched, and a call starts only on the way out. */
  ghost predicate Calmly(s: Sched, s': Sched) {
    SameIdle(s, s') && OutTerm(s, s')
  }

  lemma CalmlyIs(s: Sched, s': Sched, e: Event)
    requires Calmly(s, s') && !Empties(s, e) && !(Looks(s, e) && WindowOver(s)) && !(e == IdleTeardown && s.tasks > 0)
    ensures IdleStep(s, s', e) && TermStep(s, s', e)
  {
    hide Looks, WindowOver, Terminating;
  }

  // ---- the worker ----

  lemma LoadAuditParked(s: Sched, i: Inputs)
    requires s.pc.LoadAudit?
    ensures var s' := FromLoadAudit(s, s.pc.id, i);
            IdleStep(s, s', Worker(i)) && TermStep(s, s', Worker(i))
  {
    if s.side.idle.None? {
      GateParked(s, s.pc.id, i);
    }
    hide GateAndSpawn, SetPid, HandOff, Line;
  }

  lemma GateParked(s: Sched, id: SlotId, i: Inputs)
    ensures Calmly(s, GateAndSpawn(s, id, i))
  {
    OutTerms();
    hide Unwind, Advance, SetPid;
  }

  lemma LoadParked(s: Sched, c: Config, i: Inputs)
    requires !s.pc.Head? && !InLoop(s.pc) && !EndsSlot(s.pc) && !s.pc.LoadAudit?
    ensures Calmly(s, Resume(s, c, i))
  {
    OutTerms();
    if s.pc.SwapVerify? {
      GateParked(s, s.pc.id, i);
    }
    hide Unwind, BeginTeardown, Advance, HandOff, Move, Mark, Settle, GateAndSpawn;
  }

  lemma LoopParked(s: Sched, c: Config, i: Inputs)
    requires InLoop(s.pc) && !s.pc.GraceTop?
    ensures Calmly(s, Resume(s, c, i))
  {
    hide Advance, Settle, Mark, Move;
  }

  lemma GraceTopParked(s: Sched, c: Config, i: Inputs)
    requires Inv(s) && s.pc.GraceTop?
    ensures var s' := FromGraceTop(s, c, s.pc.id, s.pc.deadline);
            IdleStep(s, s', Worker(i)) && TermStep(s, s', Worker(i))
  {
    assert s.side.idle.None? by {
      hide BookOk, SideOk, CountOk, WritingOk;
    }
    OutTerms();
    hide Inv, BeginTeardown, FirstMatch, Advance, SetPid, Move, IdleWindow, Line;
  }

  lemma EndParked(s: Sched, c: Config, i: Inputs)
    requires EndsSlot(s.pc) && !s.pc.EvictAudit?
    ensures Calmly(s, Resume(s, c, i))
  {
    OutTerms();
    EndTermStartsNone(s.side);
    hide Unwind, Leave, ForceCold, AfterTeardown, Mark, Freeze, EndActiveTerm;
  }

  lemma EvictParked(s: Sched, c: Config, i: Inputs)
    requires s.pc.EvictAudit?
    ensures var s' := Resume(s, c, i);
            IdleStep(s, s', Worker(i)) && TermStep(s, s', Worker(i))
  {
    hide Line;
  }

  lemma HeadParked(s: Sched, c: Config, i: Inputs)
    requires ConfigOk(c) && s.pc.Head?
    ensures var s' := FromHead(s, c, i);
            IdleStep(s, s', Worker(i)) && TermStep(s, s', Worker(i))
  {
    PopTakesHeadOfLine(s.book.q, c.stagingMax);
    if !s.stop && PoppedBy(s.book.q, c).Some? {
      var id := PoppedBy(s.book.q, c).value;
      StartParked(s.(book := PopBook(s.book, c), activeSlot := Some(id), latest := None), id, i);
    }
    hide PopBook, Popped, StartSlot, Settle, Line;
  }

  lemma StartParked(s: Sched, id: SlotId, i: Inputs)
    ensures Calmly(s, StartSlot(s, id, i))
  {
    OutTerms();
    hide Unwind, Advance;
  }

  lemma WorkerParked(s: Sched, c: Config, i: Inputs)
    requires Inv(s) && ConfigOk(c)
    ensures IdleStep(s, Resume(s, c, i), Worker(i)) && TermStep(s, Resume(s, c, i), Worker(i))
  {
    hide Inv, IdleStep, TermStep, Calmly;
    if s.pc.Head? {
      HeadParked(s, c, i);
    } else if s.pc.GraceTop? {
      GraceTopParked(s, c, i);
    } else if s.pc.LoadAudit? {
      LoadAuditParked(s, i);
    } else if s.pc.EvictAudit? {
      EvictParked(s, c, i);
    } else {
      if InLoop(s.pc) {
        LoopParked(s, c, i);
      } else if EndsSlot(s.pc) {
        EndParked(s, c, i);
      } else {
        LoadParked(s, c, i);
      }
      hide Resume;
      CalmlyIs(s, Resume(s, c, i), Worker(i));
    }
    hide FromHead, FromGraceTop, FromLoadAudit;
  }

  lemma CancelParked(s: Sched)
    requires !s.pc.GraceTop?
    ensures Calmly(s, Cancel(s))
  {
    OutTerms();
    hide Unwind, Settle, Move;
  }

  lemma TaskParked(s: Sched, c: Config, e: Event)
    requires Allowed(s, e) && !e.Worker? && e != ShutdownAsked && SideOk(s.side)
    ensures IdleStep(s, Step(s, c, e), e) && TermStep(s, Step(s, c, e), e)
  {
    if e.Request? {
      SubmitSide(s, c, e.id, e.threadId, e.modelTag, e.keepAlive, e.wait);
    }
    hide Resume, Cancel, Submit, Settle, Landed, Swept, Line, AllSettled;
  }

  /** Over every run: what each event does to the idle holder and its teardown tasks, and why a SIGTERM call starts. */
  lemma HoldersExactly(c: Config, events: seq<Event>, k: nat)
    requires RunOf(c, events) && k < |events|
    ensures IdleStep(StateAt(c, events, k), StateAt(c, events, k + 1), events[k])
    ensures TermStep(StateAt(c, events, k), StateAt(c, events, k + 1), events[k])
  {
    var s, e := StateAt(c, events, k), events[k];
    ReachedOk(c, events, k);
    hide IdleStep, TermStep, StateAt;
    if e.Worker? {
      WorkerParked(s, c, e.i);
    } else if e == ShutdownAsked {
      CancelParked(s);
      CalmlyIs(s, Cancel(s), e);
    } else {
      TaskParked(s, c, e);
      hide Step, SideOk;
    }
    hide Inv, Resume, Cancel;
  }

  // ---- deaths ----

  /** A living process is gone after this event: it dies of itself or by a detached call, or the call of the worker that
      is under way for it returns. */
  predicate DeathCause(s: Sched, e: Event, p: Pid) {
    || e == Dies(p)
    || (&& e.Worker? && e.i.termReturned
        && (|| (s.pc.SwapTerm? && s.pc.p == p)
            || ((s.pc.TdTerm? || s.pc.FinTerm? || s.pc.FcTerm?) && s.side.active == Some(p))))
  }

  ghost predicate DeathStep(s: Sched, s': Sched, e: Event) {
    forall p :: Alive(s.side, p) ==> (!Alive(s'.side, p) <==> DeathCause(s, e, p))
  }

  ghost predicate SameAlive(s: Sched, s': Sched) {
    forall p :: Alive(s.side, p) ==> Alive(s'.side, p)
  }

  ghost predicate AliveAlike(s: Sched, s': Sched) {
    forall p :: Alive(s.side, p) <==> Alive(s'.side, p)
  }

  lemma OutAlive()
    ensures forall s: Sched, how :: AliveAlike(s, Unwind(s, how))
    ensures forall s: Sched, how :: AliveAlike(s, Leave(s, how))
    ensures forall s: Sched, id :: AliveAlike(s, ForceCold(s, id))
    ensures forall s: Sched, id, why :: AliveAlike(s, AfterTeardown(s, id, why))
    ensures forall s: Sched, id, why :: AliveAlike(s, BeginTeardown(s, id, why))
  {
    hide Freeze, Settle;
  }

  lemma GateAlive(s: Sched, id: SlotId, i: Inputs)
    requires i.spawn.Some? ==> i.spawn.value !in s.side.procs
    ensures SameAlive(s, GateAndSpawn(s, id, i))
  {
    OutAlive();
    hide Unwind, Advance, SetPid;
  }

  lemma LoadDeaths(s: Sched, c: Config, i: Inputs)
    requires !s.pc.Head? && !InLoop(s.pc) && !EndsSlot(s.pc) && (i.spawn.Some? ==> i.spawn.value !in s.side.procs)
    ensures DeathStep(s, Resume(s, c, i), Worker(i))
  {
    OutAlive();
    if s.pc.LoadAudit? || s.pc.SwapVerify? {
      GateAlive(s, s.pc.id, i);
    }
    hide Unwind, BeginTeardown, Advance, HandOff, SetPid, Move, Mark, Settle, GateAndSpawn;
  }

  lemma LoopDeaths(s: Sched, c: Config, i: Inputs)
    requires InLoop(s.pc) && !s.pc.GraceTop?
    ensures Resume(s, c, i).side == s.side
  {
    hide Advance, Settle, Mark, Move;
  }

  lemma GraceTopDeaths(s: Sched, c: Config)
    requires s.pc.GraceTop?
    ensures SameAlive(s, FromGraceTop(s, c, s.pc.id, s.pc.deadline))
  {
    OutAlive();
    hide BeginTeardown, FirstMatch, Advance, SetPid, Move, IdleWindow;
  }

  lemma HeadDeaths(s: Sched, c: Config, i: Inputs)
    requires s.pc.Head?
    ensures SameAlive(s, FromHead(s, c, i))
  {
    OutAlive();
    hide Unwind, Advance, Settle, PopBook, Popped;
  }

  lemma EndDeaths(s: Sched, c: Config, i: Inputs)
    requires EndsSlot(s.pc)
    ensures DeathStep(s, Resume(s, c, i), Worker(i))
  {
    OutAlive();
    hide Unwind, Leave, ForceCold, AfterTeardown, Mark, Freeze;
  }

  lemma TaskDeaths(s: Sched, c: Config, e: Event)
    requires Allowed(s, e) && !e.Worker?
    ensures DeathStep(s, Step(s, c, e), e)
  {
    if e == ShutdownAsked {
      OutAlive();
    } else if e.Request? {
      SubmitSide(s, c, e.id, e.threadId, e.modelTag, e.keepAlive, e.wait);
    }
    hide Resume, Unwind, Submit, Settle, Move, Landed, Swept, Line;
  }

  /** Over every run: in each event exactly those living processes end that have a cause to. */
  lemma DeathsExactly(c: Config, events: seq<Event>, k: nat)
    requires RunOf(c, events) && k < |events|
    ensures DeathStep(StateAt(c, events, k), StateAt(c, events, k + 1), events[k])
  {
    ReachedOk(c, events, k);
    AnyDeaths(StateAt(c, events, k), c, events[k]);
    hide Inv, Allowed, Step, DeathStep, StateAt;
  }

  lemma AnyDeaths(s: Sched, c: Config, e: Event)
    requires Allowed(s, e)
    ensures DeathStep(s, Step(s, c, e), e)
  {
    if !e.Worker? {
      TaskDeaths(s, c, e);
      hide Step;
    } else if s.pc.Head? {
      HeadDeaths(s, c, e.i);
    } else if s.pc.GraceTop? {
      GraceTopDeaths(s, c);
    } else if InLoop(s.pc) {
      LoopDeaths(s, c, e.i);
    } else if EndsSlot(s.pc) {
      EndDeaths(s, c, e.i);
    } else {
      LoadDeaths(s, c, e.i);
    }
    hide FromHead, FromGraceTop, Alive;
  }
}
