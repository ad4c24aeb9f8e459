/** How a slot ends: which row the worker ends, for what reason, and what the handler of uncaught exceptions does with
    the active process. */
module SchedulerEnds {
  import opened Wrappers
  import opened Fsm
  import opened Slots
  import opened Queue
  import opened StateDb
  import opened Timers
  import opened Scheduler
  import opened SchedulerInvariant
  import opened SchedulerQueue
  import opened SchedulerFrames
  import opened SchedulerTheorems
  import opened SchedulerRows
  import opened SchedulerLoad

  /** A row and the reason it is ended for. */
  datatype End = End(id: SlotId, reason: string)

  /** The row that the worker ends at this point. A follow-up's says whether its completion was answered. */
  function EndsHere(pc: Pc): Option<End> {
    match pc
    case RiskFail(id) => Some(End(id, "manifest_not_found"))
    case RefuseAudit(id) => Some(End(id, "safety_gate_refused"))
    case MatchPopped(_, m, _, true) => Some(End(m, "active_match_completed"))
    case MatchPopped(_, m, _, false) => Some(End(m, "active_match_failed"))
    case MatchCancel(_, m) => Some(End(m, "active_match_cancelled"))
    case IdleAudit(id) => Some(End(id, "grace-expired-held-idle"))
    case TdVerify(id, LoadFail) => Some(End(id, "loading-fail-health-timeout"))
    case TdVerify(id, GraceOver) => Some(End(id, "grace-expired"))
    case TdVerify(id, Uncaught) => Some(End(id, "worker-uncaught-exception"))
    case _ => None
  }

  predicate EndedFor(b: Book, x: SlotId, reason: string, now: int) {
    x in b.rows && b.rows[x].state == COLD && b.rows[x].endedAt == Some(now) && b.rows[x].endReason == Some(reason)
  }

  /** A stretch of the worker ends the row that its point says, for that reason, and no other but that of a slot which
      the handler forces cold. */
  ghost predicate EndStep(s: Sched, s': Sched) {
    && (EndsHere(s.pc).Some? ==> EndedFor(s'.book, EndsHere(s.pc).value.id, EndsHere(s.pc).value.reason, s.now))
    && (forall x :: x in s.book.rows && (EndsHere(s.pc).Some? ==> EndsHere(s.pc).value.id != x) ==>
          x in s'.book.rows
          && (s'.book.rows[x] == s.book.rows[x]
              || (s'.pc.FcAudit? && EndedFor(s'.book, x, "worker-uncaught-exception", s.now))))
  }

  /** Rows after a step without a row of its own to end. */
  ghost predicate Forced(s: Sched, s': Sched) {
    forall x :: x in s.book.rows ==>
      x in s'.book.rows
      && (s'.book.rows[x] == s.book.rows[x]
          || (s'.pc.FcAudit? && EndedFor(s'.book, x, "worker-uncaught-exception", s.now)))
  }

  lemma OutForces()
    ensures forall s: Sched, how :: Forced(s, Unwind(s, how))
    ensures forall s: Sched, how :: Forced(s, Leave(s, how))
    ensures forall s: Sched, id :: Forced(s, ForceCold(s, id))
    ensures forall s: Sched, id, why :: Forced(s, AfterTeardown(s, id, why))
    ensures forall s: Sched, id, why :: Forced(s, BeginTeardown(s, id, why))
    ensures forall s: Sched {:trigger Unwind(s, Returned)} :: Unwind(s, Returned).book == s.book
    ensures forall s: Sched, left {:trigger Unwind(s, Cancelled(left))} :: Unwind(s, Cancelled(left)).book == s.book
  {
    ColdForces();
    hide Freeze, Alive, ForceCold;
  }

  lemma ColdForces()
    ensures forall s: Sched, id :: Forced(s, ForceCold(s, id))
  {
    hide Walked, ColdWalk;
  }

  lemma LoadEnds(s: Sched, c: Config, i: Inputs)
    requires !s.pc.Head? && !InLoop(s.pc) && !EndsSlot(s.pc) && EndsHere(s.pc).None?
    ensures Forced(s, Resume(s, c, i))
  {
    OutForces();
    SlotWrites();
    hide Unwind, BeginTeardown, Advance, SetPid, Settle, Move;
  }

  lemma RefusalRow(s: Sched, c: Config, i: Inputs)
    requires (s.pc.RiskFail? || s.pc.RefuseAudit?) && s.pc.id in s.book.rows
    ensures EndStep(s, Resume(s, c, i))
  {
    OutForces();
    SlotWrites();
    hide Unwind, Settle, Move;
  }

  lemma LoopEnds(s: Sched, c: Config, i: Inputs)
    requires InLoop(s.pc) && !s.pc.GraceTop? && (s.pc.MatchPopped? ==> s.pc.m in s.book.rows)
    ensures EndStep(s, Resume(s, c, i))
  {
    SlotWrites();
    hide Advance, Settle, Move;
  }

  lemma EndEnds(s: Sched, c: Config, i: Inputs)
    requires EndsSlot(s.pc) && (EndsHere(s.pc).Some? ==> EndsHere(s.pc).value.id in s.book.rows)
    ensures EndStep(s, Resume(s, c, i))
  {
    OutForces();
    if s.pc.TdTerm? || s.pc.TdVerify? || s.pc.TdAudit? {
      TeardownEnds(s, c, i);
      hide Resume;
    } else if s.pc.FcTerm? {
      FreezeForces(s, s.pc.id);
    }
    hide Unwind, Leave, Freeze;
  }

  lemma TeardownEnds(s: Sched, c: Config, i: Inputs)
    requires (s.pc.TdTerm? || s.pc.TdVerify? || s.pc.TdAudit?) && (s.pc.TdVerify? ==> s.pc.id in s.book.rows)
    ensures EndStep(s, Resume(s, c, i))
  {
    OutForces();
    hide Unwind, ForceCold, AfterTeardown;
  }

  lemma FreezeForces(s: Sched, id: SlotId)
    ensures forall d, pc: Pc :: pc.FcAudit? ==> Forced(s, s.(side := d, book := Freeze(s.book, id, s.now), pc := pc))
  {
    hide Walked, ColdWalk;
  }

  lemma TopEnds(s: Sched, c: Config, i: Inputs)
    requires s.pc.Head? || s.pc.GraceTop?
    ensures Forced(s, Resume(s, c, i))
  {
    OutForces();
    if s.pc.GraceTop? {
      GraceTopEnds(s, c);
    } else {
      HeadEnds(s, c, i);
    }
    hide FromGraceTop, FromHead;
  }

  lemma GraceTopEnds(s: Sched, c: Config)
    requires s.pc.GraceTop?
    ensures Forced(s, FromGraceTop(s, c, s.pc.id, s.pc.deadline))
  {
    OutForces();
    SlotWrites();
    hide BeginTeardown, FirstMatch, Advance, SetPid, Move, IdleWindow;
  }

  lemma HeadEnds(s: Sched, c: Config, i: Inputs)
    requires s.pc.Head?
    ensures Forced(s, FromHead(s, c, i))
  {
    OutForces();
    SlotWrites();
    PopRows(s.book, c);
    hide Unwind, Advance, Settle, PopBook, Popped;
  }

  lemma RowKnown(s: Sched)
    requires Inv(s)
    ensures EndsHere(s.pc).Some? ==> EndsHere(s.pc).value.id in s.book.rows
  {
    if EndsHere(s.pc).Some? {
      HandFacts(s.book, Hand(s.pc), EndsHere(s.pc).value.id);
    }
    hide BookOk, SideOk, PcOk, CountOk, WritingOk;
  }

  /** Over every run: which rows a stretch of the worker ends, and for what reason. */
  lemma EndsExactly(c: Config, events: seq<Event>, k: nat)
    requires RunOf(c, events) && k < |events| && events[k].Worker?
    ensures EndStep(StateAt(c, events, k), StateAt(c, events, k + 1))
  {
    WorkerStep(c, events, k);
    WorkerEnds(StateAt(c, events, k), c, events[k].i);
    hide Inv, Resume, EndStep, StateAt;
  }

  lemma WorkerEnds(s: Sched, c: Config, i: Inputs)
    requires Inv(s)
    ensures EndStep(s, Resume(s, c, i))
  {
    RowKnown(s);
    hide Inv;
    if s.pc.Head? || s.pc.GraceTop? {
      TopEnds(s, c, i);
    } else if InLoop(s.pc) {
      LoopEnds(s, c, i);
    } else if EndsSlot(s.pc) {
      EndEnds(s, c, i);
    } else if s.pc.RiskFail? || s.pc.RefuseAudit? {
      RefusalRow(s, c, i);
    } else {
      LoadEnds(s, c, i);
    }
    hide Resume;
  }

  // ---- the finally block and the handler ----

  /** The call of the finally block returns, and the holder is empty; or it raises, the process stays, and a slot that
      was being left by an exception is torn down again by the handler. */
  predicate FinallyStep(s: Sched, s': Sched, how: Leaving, returned: bool) {
    && (if returned then s'.side.active.None? && (s.side.active.Some? ==> !Alive(s'.side, s.side.active.value))
        else s'.side.active == s.side.active && (s.side.active.Some? ==> s.side.active.value in s'.side.raised))
    && match how
       case Returned => s'.pc == Head
       case Cancelled(left) => s'.pc == Exited(left)
       case Raised(id) => s'.pc == if returned then FcAudit else TdTerm(id, Uncaught)
  }

  /** The handler's teardown: it goes on to verify if the call returned; if it raised, it forces the slot cold, calling
      once more exactly if the active process is that slot's own and no other slot is being processed. */
  predicate HandlerStep(s: Sched, s': Sched, id: SlotId, returned: bool) {
    if returned then s'.pc == TdVerify(id, Uncaught) && (s.side.active.Some? ==> !Alive(s'.side, s.side.active.value))
    else
      && s'.side.active == s.side.active
      && var own := s.side.active.Some? && PidOf(s.book, id) == s.side.active
                    && (s.activeSlot.None? || s.activeSlot == Some(id));
         s'.pc == if own then FcTerm(id) else FcAudit
  }

  lemma HandlersExactly(c: Config, events: seq<Event>, k: nat)
    requires RunOf(c, events) && k < |events| && events[k].Worker?
    ensures var s, s', returned := StateAt(c, events, k), StateAt(c, events, k + 1), events[k].i.termReturned;
            && (s.pc.FinTerm? ==> FinallyStep(s, s', s.pc.how, returned))
            && (s.pc.TdTerm? && s.pc.why == Uncaught ==> HandlerStep(s, s', s.pc.id, returned))
            && (s.pc.FcTerm? ==>
                  s'.pc == FcAudit && (s'.side.active.None? <==> s.side.active.None? || returned))
  {
    var s := StateAt(c, events, k);
    WorkerStep(c, events, k);
    HandlerOutcome(s, c, events[k].i);
    hide Inv, Resume, FinallyStep, HandlerStep, StateAt;
  }

  lemma HandlerOutcome(s: Sched, c: Config, i: Inputs)
    requires Inv(s)
    ensures var s', returned := Resume(s, c, i), i.termReturned;
            && (s.pc.FinTerm? ==> FinallyStep(s, s', s.pc.how, returned))
            && (s.pc.TdTerm? && s.pc.why == Uncaught ==> HandlerStep(s, s', s.pc.id, returned))
            && (s.pc.FcTerm? ==>
                  s'.pc == FcAudit && (s'.side.active.None? <==> s.side.active.None? || returned))
  {
    EndResumes(s, c, i);
    hide Resume;
    if s.pc.FinTerm? {
      FinallyOutcome(s, i);
    } else if s.pc.TdTerm? && s.pc.why == Uncaught {
      AgainOutcome(s, i);
    } else if s.pc.FcTerm? {
      LastOutcome(s, i);
    }
    hide Inv, FromFinTerm, FromTdTerm, FromFcTerm, FinallyStep, HandlerStep;
  }

  lemma EndResumes(s: Sched, c: Config, i: Inputs)
    ensures s.pc.FinTerm? ==> Resume(s, c, i) == FromFinTerm(s, s.pc.how, i)
    ensures s.pc.TdTerm? ==> Resume(s, c, i) == FromTdTerm(s, s.pc.id, s.pc.why, i)
    ensures s.pc.FcTerm? ==> Resume(s, c, i) == FromFcTerm(s, s.pc.id, i)
  {
    hide FromFinTerm, FromTdTerm, FromFcTerm;
  }

  lemma AgainOutcome(s: Sched, i: Inputs)
    requires s.pc.TdTerm? && s.pc.why == Uncaught
    ensures HandlerStep(s, FromTdTerm(s, s.pc.id, s.pc.why, i), s.pc.id, i.termReturned)
  {
    hide Freeze, Unwind;
  }

  lemma LastOutcome(s: Sched, i: Inputs)
    requires s.pc.FcTerm?
    ensures var s' := FromFcTerm(s, s.pc.id, i);
            s'.pc == FcAudit && (s'.side.active.None? <==> s.side.active.None? || i.termReturned)
  {
    hide Freeze;
  }

  lemma FinallyOutcome(s: Sched, i: Inputs)
    requires Inv(s) && s.pc.FinTerm?
    ensures FinallyStep(s, FromFinTerm(s, s.pc.how, i), s.pc.how, i.termReturned)
  {
    assert s.side.active.Some? && (s.pc.how.Raised? ==> s.pc.how.id in s.book.slots) by {
      hide BookOk, SideOk, CountOk, WritingOk;
    }
    hide Inv, Freeze, Settle;
  }

  /** A teardown: it starts with a SIGTERM call on the active process, for a load that failed after its slot is POPPED;
      it goes on to verify exactly if the call returned, and ends with an empty holder. If the call raised, that is
      noted and the slot is left by the exception. */
  predicate TeardownStep(s: Sched, s': Sched, returned: bool) {
    && (s.pc.FailAudit? ==>
          && At(s'.book, s.pc.id, POPPED) && s'.pc == TdTerm(s.pc.id, LoadFail) && s.side.active.Some?
          && Terminating(s'.side, s.side.active.value))
    && (s.pc.TdTerm? && s.pc.why != Uncaught && s.side.active.Some? ==>
          if returned then s'.pc == TdVerify(s.pc.id, s.pc.why) && !Alive(s'.side, s.side.active.value)
          else s.side.active.value in s'.side.raised && !s'.pc.TdVerify? && !s'.pc.ColdIdleAudit? && !s'.pc.Head?)
    && (s.pc.TdVerify? ==> s'.pc == TdAudit(s.pc.id, s.pc.why) && s'.side == s.side)
    && (s.pc.TdAudit? ==>
          s'.side.active.None?
          && s'.pc == match s.pc.why
                      case LoadFail => Head
                      case GraceOver => ColdIdleAudit(s.pc.id)
                      case Uncaught => FcAudit)
  }

  lemma TeardownsExactly(c: Config, events: seq<Event>, k: nat)
    requires RunOf(c, events) && k < |events| && events[k].Worker?
    ensures TeardownStep(StateAt(c, events, k), StateAt(c, events, k + 1), events[k].i.termReturned)
  {
    WorkerStep(c, events, k);
    TeardownOutcome(StateAt(c, events, k), c, events[k].i);
    hide Inv, Resume, TeardownStep, StateAt;
  }

  lemma TeardownOutcome(s: Sched, c: Config, i: Inputs)
    requires Inv(s)
    ensures TeardownStep(s, Resume(s, c, i), i.termReturned)
  {
    if s.pc.FailAudit? {
      FailOutcome(s, c, i);
      hide Inv, Resume;
    } else if s.pc.TdTerm? {
      TdTermOutcome(s, i);
      hide Inv, FromTdTerm;
    } else if s.pc.TdVerify? || s.pc.TdAudit? {
      hide Inv, Freeze, Settle, TdReason;
    }
  }

  lemma FailOutcome(s: Sched, c: Config, i: Inputs)
    requires Inv(s) && s.pc.FailAudit?
    ensures TeardownStep(s, Resume(s, c, i), i.termReturned)
  {
    assert At(s.book, s.pc.id, LOADING_FAIL) && s.side.active.Some? && s.side.active.value in s.side.procs by {
      hide BookOk, CountOk, WritingOk;
    }
    hide Inv;
  }

  lemma TdTermOutcome(s: Sched, i: Inputs)
    requires s.pc.TdTerm?
    ensures var s', id, why := FromTdTerm(s, s.pc.id, s.pc.why, i), s.pc.id, s.pc.why;
            why != Uncaught && s.side.active.Some? ==>
              if i.termReturned then s'.pc == TdVerify(id, why) && !Alive(s'.side, s.side.active.value)
              else s.side.active.value in s'.side.raised && !s'.pc.TdVerify? && !s'.pc.ColdIdleAudit? && !s'.pc.Head?
  {
    hide Freeze, Settle;
  }
}
