/** When a spawn finds the active holder filled: exactly when the call that should have emptied it raised. */
module SchedulerHolder {
  import opened Wrappers
  import opened Fsm
  import opened Slots
  import opened Queue
  import opened Scheduler
  import opened SchedulerInvariant
  import opened SchedulerFrames
  import opened SchedulerTheorems

  /** The calls that decide what a slot leaves in the holder: those of the finally block, of the worker loop's
      handler and of `_force_cold`. A raise elsewhere is followed by one of these, or finds the process dead. */
  predicate LastCall(pc: Pc) {
    pc.FinTerm? || pc.FcTerm? || (pc.TdTerm? && pc.why == Uncaught)
  }

  /** The worker pops a slot that is not evicted. */
  predicate TakesSlot(s: Sched, c: Config, e: Event) {
    && e.Worker? && s.pc.Head? && !s.stop
    && var popped, slots := Popped(s.book.q, c.stagingMax), PopBook(s.book, c).slots;
       popped.Some? && !(popped.value in slots && slots[popped.value].evicted)
  }

  /** Whether the last of those calls raised, and how many slots were taken since. */
  datatype Log = Log(raised: bool, taken: nat)

  function NextLog(log: Log, s: Sched, c: Config, e: Event): Log {
    if e.Worker? && LastCall(s.pc) then Log(!e.i.termReturned, 0)
    else if TakesSlot(s, c, e) then log.(taken := log.taken + 1)
    else log
  }

  function LogAt(c: Config, events: seq<Event>, k: nat): Log
    requires k <= |events|
    decreases k
  {
    if k == 0 then Log(false, 0) else NextLog(LogAt(c, events, k - 1), StateAt(c, events, k - 1), c, events[k - 1])
  }

  /** Between two slots. */
  predicate Between(pc: Pc) {
    pc.Head? || pc.HeadSleep? || pc.EvictAudit? || pc.FcAudit?
  }

  /** Before the slot has a process. */
  predicate BeforeSpawn(pc: Pc) {
    pc.RiskLoading? || pc.RiskFail? || pc.LoadAudit? || pc.SwapTerm? || pc.SwapVerify? || pc.RefuseAudit?
  }

  predicate HoldOk(s: Sched, log: Log) {
    if Between(s.pc) then s.side.active.Some? <==> log.raised && log.taken == 0
    else if BeforeSpawn(s.pc) then
      (s.side.active.Some? <==> log.raised && log.taken == 1) && (log.raised ==> log.taken >= 1)
    else LastCall(s.pc) || s.pc.Exited? || (log.raised ==> log.taken >= 1)
  }

  /** Since the last call that raised a slot has been taken. */
  predicate InSlot(log: Log) {
    log.raised ==> log.taken >= 1
  }

  lemma ForceColdHolds(s: Sched, id: SlotId, log: Log)
    requires s.side.active.Some? <==> log.raised && log.taken == 0
    ensures HoldOk(ForceCold(s, id), log)
  {
    hide Freeze;
  }

  lemma UnwindHolds(s: Sched, how: Leaving, log: Log)
    requires InSlot(log)
    ensures HoldOk(Unwind(s, how), log)
  {
    if how.Raised? {
      var s' := s.(activeSlot := None, side := s.side.(active := None));
      ForceColdHolds(s'.(book := Settle(s'.book, how.id, Failed("worker"))), how.id, log);
    }
    hide ForceCold, Settle, Alive;
  }

  lemma BeginTeardownHolds(s: Sched, id: SlotId, why: Why, log: Log)
    requires InSlot(log) && why != Uncaught
    ensures HoldOk(BeginTeardown(s, id, why), log)
  {
    UnwindHolds(s.(book := Settle(s.book, id, Failed("loading-fail-health-timeout"))), Returned, log);
    hide Unwind, Settle;
  }

  lemma HeadHolds(s: Sched, c: Config, i: Inputs, log: Log)
    requires s.pc.Head? && HoldOk(s, log)
    ensures HoldOk(FromHead(s, c, i), NextLog(log, s, c, Worker(i)))
  {
    if TakesSlot(s, c, Worker(i)) {
      var id := Popped(s.book.q, c.stagingMax).value;
      UnwindHolds(s.(book := PopBook(s.book, c), activeSlot := Some(id), latest := None), Raised(id),
                  log.(taken := log.taken + 1));
    }
    hide Popped, PopBook, Unwind, Settle, Advance;
  }

  lemma GateHolds(s: Sched, id: SlotId, i: Inputs, log: Log)
    requires (s.pc.LoadAudit? || s.pc.SwapVerify?) && HoldOk(s, log)
    ensures HoldOk(GateAndSpawn(s, id, i), log)
  {
    UnwindHolds(s, Raised(id), log);
    hide Unwind, Advance, SetPid;
  }

  lemma LoadHolds(s: Sched, c: Config, i: Inputs, log: Log)
    requires !s.pc.Head? && !InLoop(s.pc) && !EndsSlot(s.pc) && !s.pc.FailAudit? && HoldOk(s, log)
    requires !s.pc.RiskFail? && !s.pc.RefuseAudit?
    ensures HoldOk(Resume(s, c, i), log)
  {
    if s.pc.LoadAudit? || s.pc.SwapVerify? {
      GateHolds(s, s.pc.id, i, log);
    } else if s.pc.SwapTerm? {
      UnwindHolds(s.(side := s.side.(raised := s.side.raised + {s.pc.p})), Raised(s.pc.id), log);
    } else if !s.pc.RiskLoading? {
      UnwindHolds(s, Raised(s.pc.id), log);
    }
    hide GateAndSpawn, Unwind, Advance, HandOff, SetPid, Settle, Mark, Move, TagOf;
  }

  lemma RefuseHolds(s: Sched, id: SlotId, reason: string, log: Log)
    requires InSlot(log)
    ensures HoldOk(Refuse(s, id, reason), log)
  {
    UnwindHolds(s.(book := Settle(Mark(Move(s.book, id, POPPED), id, reason, s.now), id, Failed(reason))), Returned,
        log);
    hide Unwind, Move, Settle, Mark;
  }

  lemma LoopHolds(s: Sched, c: Config, i: Inputs, log: Log)
    requires InLoop(s.pc) && !s.pc.GraceTop? && HoldOk(s, log)
    ensures HoldOk(Resume(s, c, i), log)
  {
    hide Advance, Settle, Mark, Move;
  }

  lemma GraceTopHolds(s: Sched, c: Config, log: Log)
    requires s.pc.GraceTop? && HoldOk(s, log)
    ensures HoldOk(FromGraceTop(s, c, s.pc.id, s.pc.deadline), log)
  {
    var id := s.pc.id;
    BeginTeardownHolds(s.(book := Move(s.book, id, POPPED), latest := None), id, GraceOver, log);
    hide BeginTeardown, Advance, SetPid, Move, FirstMatch, IdleWindow, TagOf;
  }

  /** The calls that decide. */
  lemma LastCallHolds(s: Sched, c: Config, i: Inputs)
    requires Inv(s) && LastCall(s.pc)
    ensures HoldOk(Resume(s, c, i), Log(!i.termReturned, 0))
  {
    var log := Log(!i.termReturned, 0);
    var d := EndActiveTerm(s.side, i.termReturned);
    match s.pc
    case TdTerm(id, _) =>
      if !i.termReturned {
        ForceColdHolds(s.(side := d), id, log);
      }
    case FinTerm(how) =>
      if i.termReturned && how.Raised? {
        var s' := s.(side := d.(active := None));
        ForceColdHolds(s'.(book := Settle(s'.book, how.id, Failed("worker"))), how.id, log);
      }
    case FcTerm(_) =>
    hide ForceCold, Settle, Freeze, PlaceOk, Distinct;
  }

  /** The other points on the way out. */
  lemma EndHolds(s: Sched, c: Config, i: Inputs, log: Log)
    requires Inv(s) && EndsSlot(s.pc) && !LastCall(s.pc) && HoldOk(s, log)
    ensures HoldOk(Resume(s, c, i), log)
  {
    match s.pc {
      case MatchCancel(id, m) =>
        UnwindHolds(s.(book := Mark(s.book, m, "active_match_cancelled", s.now)), Cancelled({id, m}), log);
      case IdleAudit(id) =>
        UnwindHolds(s.(book := Mark(s.book, id, "grace-expired-held-idle", s.now)), Returned, log);
      case ColdIdleAudit(id) => UnwindHolds(s, Returned, log);
      case _ => TeardownHolds(s, c, i, log);
    }
    hide Unwind, Mark, Inv;
  }

  lemma TeardownHolds(s: Sched, c: Config, i: Inputs, log: Log)
    requires PcOk(s) && EndsSlot(s.pc) && !LastCall(s.pc) && HoldOk(s, log)
    requires !s.pc.MatchCancel? && !s.pc.IdleAudit? && !s.pc.ColdIdleAudit?
    ensures HoldOk(Resume(s, c, i), log)
  {
    if s.pc.TdTerm? {
      TdTermHolds(s, c, i, log);
    } else if s.pc.TdAudit? {
      TdAuditHolds(s, s.pc.id, s.pc.why, log);
    }
    hide Mark, FromTdTerm, AfterTeardown, PlaceOk, Distinct, SideOk;
  }

  lemma TdTermHolds(s: Sched, c: Config, i: Inputs, log: Log)
    requires PcOk(s) && s.pc.TdTerm? && !LastCall(s.pc) && HoldOk(s, log)
    ensures HoldOk(FromTdTerm(s, s.pc.id, s.pc.why, i), log)
  {
    UnwindHolds(s.(side := EndActiveTerm(s.side, i.termReturned)), Raised(s.pc.id), log);
    hide Unwind;
  }

  lemma TdAuditHolds(s: Sched, id: SlotId, why: Why, log: Log)
    requires InSlot(log)
    ensures HoldOk(AfterTeardown(s.(side := s.side.(active := None)), id, why), log)
  {
    var s' := s.(side := s.side.(active := None));
    UnwindHolds(s'.(book := Settle(s'.book, id, Failed("loading-fail-health-timeout"))), Returned, log);
    ForceColdHolds(s', id, log);
    hide Unwind, ForceCold, Settle;
  }

  lemma WorkerHolds(s: Sched, c: Config, i: Inputs, log: Log)
    requires Inv(s) && HoldOk(s, log)
    ensures HoldOk(Resume(s, c, i), NextLog(log, s, c, Worker(i)))
  {
    if s.pc.Head? {
      HeadHolds(s, c, i, log);
    } else if LastCall(s.pc) {
      LastCallHolds(s, c, i);
    } else if s.pc.GraceTop? {
      GraceTopHolds(s, c, log);
    } else if InLoop(s.pc) {
      LoopHolds(s, c, i, log);
    } else if EndsSlot(s.pc) {
      EndHolds(s, c, i, log);
    } else if s.pc.RiskFail? {
      RefuseHolds(s, s.pc.id, "manifest_not_found", log);
    } else if s.pc.RefuseAudit? {
      RefuseHolds(s, s.pc.id, "safety_gate_refused", log);
    } else if s.pc.FailAudit? {
      BeginTeardownHolds(s.(book := Move(s.book, s.pc.id, POPPED)), s.pc.id, LoadFail, log);
    } else {
      LoadHolds(s, c, i, log);
    }
    hide Inv, FromHead, FromGraceTop, Refuse, BeginTeardown, Move;
  }

  lemma CancelHolds(s: Sched, log: Log)
    requires HoldOk(s, log) && !s.pc.GraceTop? && !s.pc.Drift?
    ensures HoldOk(Cancel(s), log)
  {
    if InSlot(log) {
      var s' := s.(stop := true, shut := Asked);
      UnwindHolds(s', Cancelled(Hand(s.pc)), log);
      if s.pc.TdTerm? || s.pc.TdVerify? || s.pc.TdAudit? {
        UnwindHolds(s', Cancelled({s.pc.id}), log);
      }
    }
    hide Unwind, Settle, HandOff, Move, Hand;
  }

  lemma StepHolds(s: Sched, c: Config, e: Event, log: Log)
    requires Inv(s) && Allowed(s, e) && HoldOk(s, log)
    ensures HoldOk(Step(s, c, e), NextLog(log, s, c, e))
  {
    match e
    case Worker(i) => WorkerHolds(s, c, i, log);
    case ShutdownAsked =>
      assert !s.pc.Drift? by {
        hide PlaceOk, Distinct, SideOk;
      }
      CancelHolds(s, log);
    case Request(id, threadId, modelTag, keepAlive, wait) => SubmitSide(s, c, id, threadId, modelTag, keepAlive, wait);
    case _ =>
    hide Inv, Resume, Cancel, Submit;
  }

  lemma {:induction false} HoldReached(c: Config, events: seq<Event>, k: nat)
    requires RunOf(c, events) && k <= |events|
    ensures HoldOk(StateAt(c, events, k), LogAt(c, events, k))
    decreases k
  {
    hide Inv, Allowed, Step, NextLog;
    if k > 0 {
      HoldReached(c, events, k - 1);
      ReachedOk(c, events, k - 1);
      StepHolds(StateAt(c, events, k - 1), c, events[k - 1], LogAt(c, events, k - 1));
      hide HoldOk;
    }
  }

  /** A spawn finds the idle holder empty, and the active holder filled exactly if the last call that should have
      emptied it raised and the spawning slot is the first one taken since; the process it then drops is one whose
      SIGTERM call raised. */
  lemma HolderFilledExactly(c: Config, events: seq<Event>, k: nat)
    requires RunOf(c, events) && k < |events|
    requires StateAt(c, events, k + 1).side.procs.Keys != StateAt(c, events, k).side.procs.Keys
    ensures var d, log := StateAt(c, events, k).side, LogAt(c, events, k);
            && d.idle.None?
            && (d.active.Some? <==> log.raised && log.taken == 1)
            && (d.active.Some? ==> d.active.value in d.raised && Terminating(d, d.active.value))
  {
    SpawnsFindHoldersEmpty(c, events, k);
    HoldReached(c, events, k);
    ReachedOk(c, events, k);
    SpawnPoint(StateAt(c, events, k), c, events[k]);
    hide Inv, Allowed, Step;
  }
}
