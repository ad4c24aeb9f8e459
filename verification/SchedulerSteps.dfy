/** Every step of the scheduler machine keeps its invariant. */
module SchedulerSteps {
  import opened Wrappers
  import opened Fsm
  import opened Slots
  import opened Queue
  import opened QueueRuns
  import opened StateDb
  import opened Timers
  import opened Scheduler
  import opened SchedulerInvariant
  import opened SchedulerQueue
  import opened SchedulerWriting

  lemma KillKeepsSide(d: Sidecars, p: Pid)
    requires SideOk(d)
    ensures SideOk(Kill(d, p))
  {
  }

  lemma RaiseKeepsSide(d: Sidecars, p: Pid)
    requires SideOk(d)
    ensures SideOk(d.(raised := d.raised + {p}))
  {
  }

  // ---- leaving _process_slot ----

  lemma ForceColdKeeps(s: Sched, id: SlotId)
    requires SideOk(s.side) && BookOk(s.book, {id}) && s.evictions == |s.book.gone|
    requires Freezable(s.book, id) && Resolved(s.book, id) && Parked(s.side)
    ensures Core(ForceCold(s, id))
  {
    hide PlaceOk, Distinct, Freeze;
    FreezeKeeps(s.book, {id}, id, s.now);
    assert {id} - {id} == {};
  }

  lemma LeaveKeeps(s: Sched, how: Leaving)
    requires SideOk(s.side) && BookOk(s.book, LeftBy(how)) && s.evictions == |s.book.gone|
    requires LeavingOk(s.book, how) && Parked(s.side)
    ensures Core(Leave(s, how))
  {
    hide PlaceOk, Distinct;
    if how.Raised? {
      SettleKeeps(s.book, {how.id}, how.id, Failed("worker"));
      if s.side.active.None? {
        ForceColdKeeps(s.(book := Settle(s.book, how.id, Failed("worker"))), how.id);
      }
    }
  }

  /** The finally block, from any point: the active handle is reaped unless it was parked or is dead. */
  lemma UnwindKeeps(s: Sched, how: Leaving)
    requires SideOk(s.side) && BookOk(s.book, LeftBy(how)) && s.evictions == |s.book.gone|
    requires LeavingOk(s.book, how)
    ensures Core(Unwind(s, how))
  {
    hide PlaceOk, Distinct, BookOk, Leave;
    if s.side.active.Some? && s.side.idle != s.side.active && Alive(s.side, s.side.active.value) {
    } else {
      LeaveKeeps(s.(activeSlot := None, side := s.side.(active := None)), how);
    }
  }

  lemma FinTermKeeps(s: Sched, i: Inputs)
    requires Core(s) && s.pc.FinTerm?
    ensures Core(FromFinTerm(s, s.pc.how, i))
  {
    hide PlaceOk, Distinct;
    var d := EndActiveTerm(s.side, i.termReturned);
    LeaveKeeps(s.(side := if i.termReturned then d.(active := None) else d), s.pc.how);
  }

  lemma FcTermKeeps(s: Sched, i: Inputs)
    requires Core(s) && s.pc.FcTerm?
    ensures Core(FromFcTerm(s, s.pc.id, i))
  {
    hide PlaceOk, Distinct, Freeze;
    FreezeKeeps(s.book, {s.pc.id}, s.pc.id, s.now);
    assert {s.pc.id} - {s.pc.id} == {};
  }

  // ---- teardown ----

  lemma TdTermKeeps(s: Sched, i: Inputs)
    requires Core(s) && s.pc.TdTerm?
    ensures Core(FromTdTerm(s, s.pc.id, s.pc.why, i))
  {
    hide PlaceOk, Distinct, BookOk, Unwind, ForceCold;
    var s' := s.(side := EndActiveTerm(s.side, i.termReturned));
    if !i.termReturned {
      if s.pc.why == Uncaught {
        ForceColdKeeps(s', s.pc.id);
      } else {
        UnwindKeeps(s', Raised(s.pc.id));
      }
    }
  }

  lemma TdVerifyKeeps(s: Sched)
    requires Core(s) && s.pc.TdVerify?
    ensures Core(s.(book := Mark(s.book, s.pc.id, TdReason(s.pc.why), s.now), pc := TdAudit(s.pc.id, s.pc.why)))
  {
    hide PlaceOk, Distinct;
    MarkKeeps(s.book, {s.pc.id}, s.pc.id, TdReason(s.pc.why), s.now);
  }

  lemma TdAuditKeeps(s: Sched, c: Config, i: Inputs)
    requires Core(s) && s.pc.TdAudit?
    ensures Core(Resume(s, c, i))
  {
    hide PlaceOk, Distinct;
    var id := s.pc.id;
    var s' := s.(side := s.side.(active := None));
    match s.pc.why
    case LoadFail =>
      var v := Failed("loading-fail-health-timeout");
      SettleKeeps(s.book, {id}, id, v);
      FinishKeeps(Settle(s.book, id, v), {id}, id);
      assert {id} - {id} == {};
      UnwindKeeps(s'.(book := Settle(s.book, id, v)), Returned);
    case GraceOver => FinishKeeps(s.book, {id}, id);
    case Uncaught => ForceColdKeeps(s', id);
  }

  /** Before a teardown the active process is the slot's, so there is one to end. */
  lemma BeginTeardownKeeps(s: Sched, id: SlotId, why: Why)
    requires SideOk(s.side) && BookOk(s.book, {id}) && s.evictions == |s.book.gone|
    requires TdOk(s, id, why) && s.side.active.Some? && s.side.idle.None?
    ensures Core(BeginTeardown(s, id, why))
  {
    hide PlaceOk, Distinct;
  }

  // ---- loading ----

  lemma StartSlotKeeps(s: Sched, id: SlotId, i: Inputs)
    requires SideOk(s.side) && BookOk(s.book, {id}) && s.evictions == |s.book.gone|
    requires Unspawned(s, id, STAGED)
    ensures Core(StartSlot(s, id, i))
  {
    hide PlaceOk, Distinct;
    if i.manifest == Invalid {
      UnwindKeeps(s, Raised(id));
    } else {
      AdvanceKeeps(s.book, {id}, id, LOADING);
    }
  }

  lemma AdvanceToKeeps(s: Sched, c: Config, i: Inputs)
    requires Core(s) && (s.pc.RiskLoading? || s.pc.InheritAudit?)
    ensures Core(Resume(s, c, i))
  {
    hide SideOk, PlaceOk, Distinct, Advance, Settle;
    AdvanceKeeps(s.book, {s.pc.id}, s.pc.id, if s.pc.RiskLoading? then LOADING_FAIL else ACTIVE);
  }

  /** A refusal before any spawn finishes the slot. */
  lemma RefuseKeeps(s: Sched, reason: string)
    requires Core(s) && (s.pc.RiskFail? || s.pc.RefuseAudit?)
    ensures Core(Refuse(s, s.pc.id, reason))
  {
    hide PlaceOk, Distinct;
    var id := s.pc.id;
    var b1 := Move(s.book, id, POPPED);
    var b2 := Mark(b1, id, reason, s.now);
    var b3 := Settle(b2, id, Failed(reason));
    MoveKeeps(s.book, {id}, id, POPPED);
    MarkKeeps(b1, {id}, id, reason, s.now);
    SettleKeeps(b2, {id}, id, Failed(reason));
    FinishKeeps(b3, {id}, id);
    assert {id} - {id} == {};
    UnwindKeeps(s.(book := b3), Returned);
  }

  lemma GateAndSpawnKeeps(s: Sched, id: SlotId, i: Inputs)
    requires SideOk(s.side) && BookOk(s.book, {id}) && s.evictions == |s.book.gone|
    requires Unspawned(s, id, LOADING) && s.side.idle.None?
    requires i.spawn.Some? ==> i.spawn.value !in s.side.procs
    ensures Core(GateAndSpawn(s, id, i))
  {
    hide PlaceOk, Distinct;
    if i.gates == Yes && i.spawn.Some? {
      SetPidKeeps(s.book, {id}, id, i.spawn);
    } else if i.gates == No {
      AdvanceKeeps(s.book, {id}, id, LOADING_FAIL);
    } else {
      UnwindKeeps(s, Raised(id));
    }
  }

  lemma LoadAuditKeeps(s: Sched, i: Inputs)
    requires Core(s) && s.pc.LoadAudit?
    requires i.spawn.Some? ==> i.spawn.value !in s.side.procs
    ensures Core(FromLoadAudit(s, s.pc.id, i))
  {
    hide PlaceOk, Distinct;
    var d, id := s.side, s.pc.id;
    if d.idle.Some? {
      SetPidKeeps(s.book, {id}, id, d.idle);
      HandOffKeeps(SetPid(s.book, id, d.idle), {id}, id);
    } else {
      GateAndSpawnKeeps(s, id, i);
    }
  }

  lemma SwapTermKeeps(s: Sched, i: Inputs)
    requires Core(s) && s.pc.SwapTerm?
    ensures Core(FromSwapTerm(s, s.pc.id, s.pc.p, i))
  {
    hide SideOk, PlaceOk, Distinct;
    if i.termReturned {
      KillKeepsSide(s.side, s.pc.p);
    }
    if !i.termReturned {
      RaiseKeepsSide(s.side, s.pc.p);
      UnwindKeeps(s.(side := s.side.(raised := s.side.raised + {s.pc.p})), Raised(s.pc.id));
    }
  }

  lemma HealthWaitKeeps(s: Sched, i: Inputs)
    requires Core(s) && s.pc.HealthWait?
    ensures Core(FromHealthWait(s, s.pc.id, i))
  {
    hide PlaceOk, Distinct;
    var id := s.pc.id;
    match i.healthy
    case Yes => AdvanceKeeps(s.book, {id}, id, ACTIVE);
    case No => AdvanceKeeps(s.book, {id}, id, LOADING_FAIL);
    case Raises => UnwindKeeps(s, Raised(id));
  }

  lemma FailAuditKeeps(s: Sched, c: Config, i: Inputs)
    requires Core(s) && s.pc.FailAudit?
    ensures Core(Resume(s, c, i))
  {
    hide PlaceOk, Distinct;
    MoveKeeps(s.book, {s.pc.id}, s.pc.id, POPPED);
    BeginTeardownKeeps(s.(book := Move(s.book, s.pc.id, POPPED)), s.pc.id, LoadFail);
  }

  // ---- serving and grace ----

  lemma ServeKeeps(s: Sched, i: Inputs)
    requires Core(s) && s.pc.Serve?
    ensures Core(FromServe(s, s.pc.id, i))
  {
    hide SideOk, PlaceOk, Distinct, Advance, Settle;
    var id := s.pc.id;
    if i.answered {
      SettleKeeps(s.book, {id}, id, Answered);
      AdvanceKeeps(Settle(s.book, id, Answered), {id}, id, GRACE);
    } else {
      UnwindKeeps(s, Raised(id));
    }
  }

  lemma MatchAuditKeeps(s: Sched)
    requires Core(s) && s.pc.MatchAudit?
    ensures Core(FromMatchAudit(s, s.pc.id, s.pc.m, s.pc.deadline))
  {
    hide SideOk, PlaceOk, Distinct;
    MoveKeeps(s.book, {s.pc.id, s.pc.m}, s.pc.m, ACTIVE);
  }

  lemma MatchServeKeeps(s: Sched, i: Inputs)
    requires Core(s) && s.pc.MatchServe?
    ensures Core(FromMatchServe(s, s.pc.id, s.pc.m, s.pc.deadline, i))
  {
    hide SideOk, PlaceOk, Distinct, Advance, Settle;
    var id, m := s.pc.id, s.pc.m;
    var v := if i.answered then Answered else Failed("active_match");
    SettleKeeps(s.book, {id, m}, m, v);
    AdvanceKeeps(Settle(s.book, m, v), {id, m}, m, GRACE);
    ServedPc(s, Advance(Settle(s.book, m, v), m, GRACE), s.pc.deadline, i.answered);
    hide PcOk, BookOk;
  }

  /** The follow-up moves on to GRACE, settled, and nothing else changes. */
  lemma ServedPc(s: Sched, b: Book, deadline: int, ok: bool)
    requires PcOk(s) && s.pc.MatchServe? && s.pc.m in b.slots && b.slots[s.pc.m].future != Pending
    requires b.slots == s.book.slots[s.pc.m := b.slots[s.pc.m]] && b.slots[s.pc.m].state == GRACE
    requires var m0, m1 := s.book.slots[s.pc.m], b.slots[s.pc.m];
             m1.threadId == m0.threadId && m1.modelTag == m0.modelTag && m1.pid == m0.pid
    ensures PcOk(s.(book := b, pc := MatchGrace(s.pc.id, s.pc.m, deadline, ok)))
  {
  }

  lemma PopMatchKeeps(s: Sched, ok: bool)
    requires Core(s) && (s.pc.MatchGrace? || s.pc.MatchExtended?)
    ensures Core(PopMatch(s, s.pc.id, s.pc.m, s.pc.deadline, ok))
  {
    hide SideOk, PlaceOk, Distinct, Advance, Settle;
    AdvanceKeeps(s.book, {s.pc.id, s.pc.m}, s.pc.m, POPPED);
  }

  lemma MatchGraceKeeps(s: Sched, c: Config)
    requires Core(s) && s.pc.MatchGrace?
    ensures Core(FromMatchGrace(s, c, s.pc.id, s.pc.m, s.pc.deadline, s.pc.ok))
  {
    if s.pc.ok && s.grace.extensions < c.maxExtensions {
      ExtendKeeps(s, c);
    } else {
      PopMatchKeeps(s, s.pc.ok);
    }
    hide Core, PopMatch;
  }

  lemma ExtendKeeps(s: Sched, c: Config)
    requires Core(s) && s.pc.MatchGrace? && s.pc.ok && s.grace.extensions < c.maxExtensions
    ensures Core(FromMatchGrace(s, c, s.pc.id, s.pc.m, s.pc.deadline, s.pc.ok))
    ensures s.pc.m in s.book.slots
  {
    hide SideOk, PlaceOk, Distinct;
    var id, m := s.pc.id, s.pc.m;
    HandFacts(s.book, {id, m}, m);
    var slot := s.book.slots[m].(extensions := Restarted(s.grace, c.maxExtensions, s.now).extensions);
    TouchKeeps(s.book, s.book.(slots := s.book.slots[m := slot]), {id, m}, m);
    hide BookOk;
  }

  lemma MatchPoppedKeeps(s: Sched)
    requires Core(s) && s.pc.MatchPopped?
    ensures Core(FromMatchPopped(s, s.pc.id, s.pc.m, s.pc.deadline, s.pc.ok))
  {
    hide SideOk, PlaceOk, Distinct;
    var id, m := s.pc.id, s.pc.m;
    var reason := if s.pc.ok then "active_match_completed" else "active_match_failed";
    MarkKeeps(s.book, {id, m}, m, reason, s.now);
    FinishKeeps(Mark(s.book, m, reason, s.now), {id, m}, m);
    assert {id, m} - {m} == {id};
  }

  lemma MatchCancelKeeps(s: Sched, c: Config, i: Inputs)
    requires Core(s) && s.pc.MatchCancel?
    ensures Core(Resume(s, c, i))
  {
    hide SideOk, PlaceOk, Distinct;
    var id, m := s.pc.id, s.pc.m;
    MarkKeeps(s.book, {id, m}, m, "active_match_cancelled", s.now);
    UnwindKeeps(s.(book := Mark(s.book, m, "active_match_cancelled", s.now)), Cancelled({id, m}));
  }

  lemma LeaveGraceKeeps(s: Sched, c: Config)
    requires Core(s) && s.pc.GraceTop?
    ensures Core(LeaveGrace(s, c, s.pc.id))
  {
    hide PlaceOk, Distinct, BookOk, BeginTeardown;
    var id := s.pc.id;
    MoveKeeps(s.book, {id}, id, POPPED);
    BeginTeardownKeeps(s.(book := Move(s.book, id, POPPED), latest := None), id, GraceOver);
  }

  lemma IdleAuditKeeps(s: Sched, c: Config, i: Inputs)
    requires Core(s) && s.pc.IdleAudit?
    ensures Core(Resume(s, c, i))
  {
    hide PlaceOk, Distinct;
    var b := Mark(s.book, s.pc.id, "grace-expired-held-idle", s.now);
    MarkKeeps(s.book, {s.pc.id}, s.pc.id, "grace-expired-held-idle", s.now);
    FinishKeeps(b, {s.pc.id}, s.pc.id);
    assert {s.pc.id} - {s.pc.id} == {};
    UnwindKeeps(s.(book := b), Returned);
  }

  lemma ColdIdleAuditKeeps(s: Sched, c: Config, i: Inputs)
    requires Core(s) && s.pc.ColdIdleAudit?
    ensures Core(Resume(s, c, i))
  {
    hide PlaceOk, Distinct;
    ReleaseKeeps(s.book, {s.pc.id}, {});
    UnwindKeeps(s, Returned);
  }

  // ---- the loop tops ----

  lemma FromHeadKeeps(s: Sched, c: Config, i: Inputs)
    requires Core(s) && s.pc.Head? && ConfigOk(c)
    ensures Core(FromHead(s, c, i))
  {
    hide PlaceOk, Distinct, PopBook, Popped, AfterPop, Promoted;
    var b := PopBook(s.book, c);
    PopBookKeeps(s.book, c);
    PopBookGone(s.book, c);
    if !s.stop && PoppedBy(s.book.q, c).Some? {
      var id := PoppedBy(s.book.q, c).value;
      assert PopHand(s.book, c) == {id};
      HandFacts(b, {id}, id);
      if b.slots[id].evicted {
        EvictKeeps(b, id);
      } else {
        StartSlotKeeps(s.(book := b, activeSlot := Some(id), latest := None), id, i);
      }
    }
  }

  lemma PopBookGone(b: Book, c: Config)
    ensures PopBook(b, c).gone == b.gone
  {
  }

  lemma GraceTopKeeps(s: Sched, c: Config)
    requires Core(s) && s.pc.GraceTop?
    ensures Core(FromGraceTop(s, c, s.pc.id, s.pc.deadline))
  {
    hide PlaceOk, Distinct;
    var id := s.pc.id;
    var slot := s.book.slots[id];
    var found := FirstMatch(s.book.q.staging, s.book.slots, slot.threadId, slot.modelTag);
    if s.now >= s.pc.deadline || s.stop {
      LeaveGraceKeeps(s, c);
    } else if found.Some? {
      PromoteMatchKeeps(s, found.value);
    }
  }

  lemma PromoteMatchKeeps(s: Sched, at: nat)
    requires Core(s) && s.pc.GraceTop? && at < |s.book.q.staging|
    requires Matches(s.book.slots, s.book.q.staging[at], s.book.slots[s.pc.id].threadId, s.book.slots[s.pc.id].modelTag)
    ensures Core(PromoteMatch(s, s.pc.id, at, s.pc.deadline))
  {
    hide SideOk, PlaceOk, Distinct, Advance;
    var id, m := s.pc.id, s.book.q.staging[at];
    var taken := s.book.(q := s.book.q.(staging := Without(s.book.q.staging, at)), slots := Flagged(s.book.slots,
        Some(m)));
    TakeKeeps(s.book, {id}, at);
    assert {id} + {m} == {id, m};
    SetPidKeeps(taken, {id, m}, m, PidOf(s.book, id));
    AdvanceKeeps(SetPid(taken, m, PidOf(s.book, id)), {id, m}, m, ACTIVE_MATCH);
  }

  // ---- every worker step ----

  lemma EvictAuditKeeps(s: Sched, c: Config, i: Inputs)
    requires Core(s) && s.pc.EvictAudit?
    ensures Core(Resume(s, c, i))
  {
    hide PlaceOk, Distinct;
  }

  lemma QuietStepKeeps(s: Sched, c: Config, i: Inputs)
    requires Core(s)
    requires s.pc.HeadSleep? || s.pc.ActiveAudit? || s.pc.GraceAudit? || s.pc.GraceSleep? || s.pc.FcAudit?
    ensures Core(Resume(s, c, i))
  {
    hide SideOk, PlaceOk, Distinct;
  }

  lemma ResumeCore(s: Sched, c: Config, i: Inputs)
    requires Core(s) && ConfigOk(c) && (i.spawn.Some? ==> i.spawn.value !in s.side.procs)
    ensures Core(Resume(s, c, i))
  {
    hide Core;
    match s.pc
    case Head => FromHeadKeeps(s, c, i);
    case EvictAudit => EvictAuditKeeps(s, c, i);
    case HeadSleep | ActiveAudit(_) | GraceAudit(_) | GraceSleep(_, _, _) | FcAudit => QuietStepKeeps(s, c, i);
    case RiskLoading(_) | InheritAudit(_) => AdvanceToKeeps(s, c, i);
    case RiskFail(_) => RefuseKeeps(s, "manifest_not_found");
    case RefuseAudit(_) => RefuseKeeps(s, "safety_gate_refused");
    case LoadAudit(_) => LoadAuditKeeps(s, i);
    case SwapTerm(_, _) => SwapTermKeeps(s, i);
    case SwapVerify(_) => SwapVerifyKeeps(s, i);
    case HealthWait(_) => HealthWaitKeeps(s, i);
    case FailAudit(_) => FailAuditKeeps(s, c, i);
    case Serve(_) => ServeKeeps(s, i);
    case GraceTop(_, _) => GraceTopKeeps(s, c);
    case MatchAudit(_, _, _) => MatchAuditKeeps(s);
    case MatchServe(_, _, _) => MatchServeKeeps(s, i);
    case MatchGrace(_, _, _, _) => MatchGraceKeeps(s, c);
    case MatchExtended(_, _, _) => PopMatchKeeps(s, true);
    case MatchPopped(_, _, _, _) => MatchPoppedKeeps(s);
    case MatchCancel(_, _) => MatchCancelKeeps(s, c, i);
    case IdleAudit(_) => IdleAuditKeeps(s, c, i);
    case ColdIdleAudit(_) => ColdIdleAuditKeeps(s, c, i);
    case TdTerm(_, _) => TdTermKeeps(s, i);
    case TdVerify(_, _) => TdVerifyKeeps(s);
    case TdAudit(_, _) => TdAuditKeeps(s, c, i);
    case FinTerm(_) => FinTermKeeps(s, i);
    case FcTerm(_) => FcTermKeeps(s, i);
    case Drift(_, _) | Exited(_) =>
  }

  lemma SwapVerifyKeeps(s: Sched, i: Inputs)
    requires Core(s) && s.pc.SwapVerify?
    requires i.spawn.Some? ==> i.spawn.value !in s.side.procs
    ensures Core(GateAndSpawn(s, s.pc.id, i))
  {
    hide PlaceOk, Distinct;
    GateAndSpawnKeeps(s, s.pc.id, i);
  }

  // ---- the other tasks ----

  lemma SubmitKeeps(s: Sched, c: Config, id: SlotId, threadId: string, modelTag: string, keepAlive: Option<int>,
      wait: bool)
    requires Core(s) && ConfigOk(c) && id !in s.book.slots
    ensures Core(Submit(s, c, id, threadId, modelTag, keepAlive, wait))
  {
    var q, slot := s.book.q, NewSlot(modelTag, threadId, keepAlive, wait);
    var a := Admit(q, c.stagingMax, c.acceptanceMax);
    assert LegalHistory(slot);
    MovedKeepsLegalHistory(slot, STAGED);
    MovedKeepsLegalHistory(slot, ACCEPT_BUFFER);
    NotQueued(s.book, Hand(s.pc), id);
    hide PlaceOk, Distinct, PcOk, CountOk, SideOk, LetIn, LegalHistory;
    if !s.stop && !q.closed {
      if GraceMatches(s.grace, c.graceSeconds, s.now, threadId, modelTag) {
        LetInKeeps(s.book, Hand(s.pc), id, AtHead(id), Moved(slot, STAGED), c, s.now);
        OthersKeepPc(s, id, Moved(slot, STAGED), q.(staging := [id] + q.staging), Restarted(s.grace,
            c.maxExtensions, s.now));
      } else if a == Staged || a == Buffered {
        var slot' := Moved(slot, if a == Staged then STAGED else ACCEPT_BUFFER);
        LetInKeeps(s.book, Hand(s.pc), id, Fresh(id), slot', c, s.now);
        OthersKeepPc(s, id, slot', AfterEnqueue(q, id, a), s.grace);
      }
    }
  }

  /** What the worker knows survives a slot being let in. */
  lemma OthersKeepPc(s: Sched, id: SlotId, slot: Slot, q: QueueState, grace: GraceState)
    requires Core(s) && id !in s.book.slots
    ensures var s' := s.(book := LetIn(s.book, id, slot, q, s.now), grace := grace);
            SideOk(s'.side) && PcOk(s') && CountOk(s')
  {
    hide PlaceOk, Distinct;
    HandKnown(s.book, Hand(s.pc), id);
  }

  lemma NotQueued(b: Book, hand: set<SlotId>, id: SlotId)
    requires BookOk(b, hand) && id !in b.slots
    ensures !Queued(b.q, id)
  {
    assert PlaceOk(b, hand, id);
  }

  lemma HandKnown(b: Book, hand: set<SlotId>, id: SlotId)
    requires BookOk(b, hand) && id !in b.slots
    ensures id !in hand && forall x :: x in hand ==> x in b.slots
  {
    assert PlaceOk(b, hand, id);
    forall x | x in hand ensures x in b.slots {
      assert PlaceOk(b, hand, x);
    }
  }

  lemma CancelCore(s: Sched)
    requires Core(s) && !s.pc.GraceTop?
    ensures Core(Cancel(s))
  {
    match s.pc
    case MatchServe(id, m, _) => CancelMatchKeeps(s);
    case Head | HeadSleep | EvictAudit | FcAudit | FcTerm(_) | FinTerm(_) | Drift(_, _) | Exited(_) =>
         CancelOutsideKeeps(s);
    case TdTerm(_, _) | TdVerify(_, _) | TdAudit(_, _) => CancelTeardownKeeps(s);
    case _ => CancelInsideKeeps(s);
  }

  lemma CancelMatchKeeps(s: Sched)
    requires Core(s) && s.pc.MatchServe?
    ensures Core(Cancel(s))
  {
    hide SideOk, PlaceOk, Distinct;
    var id, m, v := s.pc.id, s.pc.m, Failed("shutdown during active_match");
    SettleKeeps(s.book, {id, m}, m, v);
    HandOffKeeps(Settle(s.book, m, v), {id, m}, m);
  }

  lemma CancelOutsideKeeps(s: Sched)
    requires Core(s)
    requires s.pc.Head? || s.pc.HeadSleep? || s.pc.EvictAudit? || s.pc.FcAudit? || s.pc.FcTerm? || s.pc.FinTerm?
          || s.pc.Drift? || s.pc.Exited?
    ensures Core(Cancel(s))
  {
    hide SideOk, PlaceOk, Distinct;
  }

  lemma CancelTeardownKeeps(s: Sched)
    requires Core(s) && (s.pc.TdTerm? || s.pc.TdVerify? || s.pc.TdAudit?)
    ensures Core(Cancel(s))
  {
    hide PlaceOk, Distinct;
    if s.pc.why != Uncaught {
      UnwindKeeps(s.(stop := true, shut := Asked), Cancelled({s.pc.id}));
    }
  }

  /** A cancellation inside `_process_slot` keeps at most one slot that was being answered. */
  lemma CancelInsideKeeps(s: Sched)
    requires Core(s) && !s.pc.GraceTop? && !s.pc.MatchServe? && !s.pc.TdTerm? && !s.pc.TdVerify? && !s.pc.TdAudit?
    requires !s.pc.Head? && !s.pc.HeadSleep? && !s.pc.EvictAudit? && !s.pc.FcAudit? && !s.pc.FcTerm? && !s.pc.FinTerm?
    requires !s.pc.Drift? && !s.pc.Exited?
    ensures Core(Cancel(s))
  {
    hide PlaceOk, Distinct;
    HandServesOne(s);
    UnwindKeeps(s.(stop := true, shut := Asked), Cancelled(Hand(s.pc)));
  }

  lemma HandServesOne(s: Sched)
    requires Core(s)
    requires !s.pc.Head? && !s.pc.HeadSleep? && !s.pc.EvictAudit? && !s.pc.FcAudit? && !s.pc.FinTerm? && !s.pc.Exited?
    ensures OneServing(s.book, Hand(s.pc)) && s.evictions == |s.book.gone|
  {
    hide PlaceOk, Distinct;
  }

  // ---- any event ----

  lemma CloseSideKeeps(s: Sched)
    requires Core(s) && s.pc.Exited?
    ensures Core(Close(s))
  {
    hide PlaceOk, Distinct;
    CloseKeeps(s, Hand(s.pc));
  }

  lemma IdleTeardownKeeps(s: Sched)
    requires Core(s)
    ensures Core(s.(side := TakeIdle(s.side)))
  {
    hide PlaceOk, Distinct;
  }

  lemma DiesKeeps(s: Sched, p: Pid)
    requires Core(s)
    ensures Core(s.(side := Kill(s.side, p)))
  {
    hide PlaceOk, Distinct;
  }

  lemma ClientKeeps(s: Sched, id: SlotId, slot: Slot)
    requires Core(s) && id in s.book.slots
    requires slot == s.book.slots[id].(disconnected := slot.disconnected, future := slot.future)
    requires slot.future == Pending ==> s.book.slots[id].future == Pending
    ensures Core(s.(book := s.book.(slots := s.book.slots[id := slot])))
  {
    hide SideOk, PlaceOk, Distinct;
    ClientWriteKeeps(s.book, Hand(s.pc), id, slot);
  }

  /** The thread's write touches a row in hand, and what the worker knows of rows it knows where none is written. */
  lemma RowWrittenKeeps(s: Sched)
    requires Inv(s)
    ensures Inv(s.(book := Landed(s.book, s.now)))
  {
    WritingInHand(s);
    LandedKeeps(s.book, Hand(s.pc), s.now);
    hide SideOk, PlaceOk, Distinct, BookOk;
  }

  lemma SweeperKeeps(s: Sched, ids: set<SlotId>, cutoff: int, between: bool)
    requires Inv(s) && IsSweep(s.book.rows, cutoff, ids)
    ensures Inv(s.(book := Swept(if between then Landed(s.book, s.now) else s.book, ids, s.now)))
  {
    var s' := if between then s.(book := Landed(s.book, s.now)) else s;
    RowWrittenKeeps(s);
    OpenOrInHand(s, ids, cutoff);
    hide Inv, Landed, Swept, IsSweep;
    UpdatesKeep(s', ids);
  }

  /** What the SELECT found is still open, or in hand, when the UPDATE comes. */
  lemma OpenOrInHand(s: Sched, ids: set<SlotId>, cutoff: int)
    requires WritingOk(s) && IsSweep(s.book.rows, cutoff, ids)
    ensures forall x :: x in ids ==> OpenRow(s, x) && OpenRow(s.(book := Landed(s.book, s.now)), x)
  {
    WritingInHand(s);
    forall x | x in ids ensures OpenRow(s, x) && OpenRow(s.(book := Landed(s.book, s.now)), x) {
      assert x in Stale(s.book.rows, cutoff);
    }
  }

  predicate OpenRow(s: Sched, x: SlotId) {
    x !in Hand(s.pc) ==> x in s.book.rows && s.book.rows[x].state != COLD
  }

  lemma UpdatesKeep(s: Sched, ids: set<SlotId>)
    requires Inv(s) && forall x :: x in ids ==> OpenRow(s, x)
    ensures Inv(s.(book := Swept(s.book, ids, s.now)))
  {
    SweptKeeps(s.book, Hand(s.pc), ids, s.now);
    hide SideOk, PlaceOk, Distinct, BookOk, Hand;
  }

  lemma ResumeKeeps(s: Sched, c: Config, i: Inputs)
    requires Inv(s) && ConfigOk(c) && Allowed(s, Worker(i))
    ensures Inv(Resume(s, c, i))
  {
    ResumeCore(s, c, i);
    ResumeWriting(s, c, i);
    hide Core, WritingOk, Resume;
  }

  lemma CancelKeeps(s: Sched)
    requires Inv(s) && !s.pc.GraceTop?
    ensures Inv(Cancel(s))
  {
    CancelCore(s);
    CancelWriting(s);
    hide Core, WritingOk, Cancel;
  }

  lemma StepKeeps(s: Sched, c: Config, e: Event)
    requires Inv(s) && ConfigOk(c) && Allowed(s, e)
    ensures Inv(Step(s, c, e))
  {
    match e {
      case Worker(i) => ResumeKeeps(s, c, i);
      case ShutdownAsked => CancelKeeps(s);
      case RowWritten => RowWrittenKeeps(s);
      case Sweep(ids, cutoff, between) => SweeperKeeps(s, ids, cutoff, between);
      case _ =>
        OtherCore(s, c, e);
        OtherWriting(s, c, e);
    }
    hide Inv, Core, WritingOk, Resume, Cancel;
  }

  /** The events that neither move the worker nor write rows it was given. */
  lemma OtherCore(s: Sched, c: Config, e: Event)
    requires Core(s) && ConfigOk(c) && Allowed(s, e) && IsOther(e)
    ensures Core(Step(s, c, e))
  {
    hide Core;
    match e
    case Request(id, threadId, modelTag, keepAlive, wait) => SubmitKeeps(s, c, id, threadId, modelTag, keepAlive, wait);
    case Disconnect(id) =>
      if id in s.book.slots {
        ClientKeeps(s, id, s.book.slots[id].(disconnected := true));
      }
    case GiveUp(id) =>
      if id in s.book.slots {
        ClientKeeps(s, id, Settled(s.book.slots[id], ClientGone));
      }
    case IdleTeardown =>
      if s.tasks > 0 {
        IdleTeardownKeeps(s);
        TimeKeeps(s.(side := TakeIdle(s.side)), Step(s, c, e));
      }
    case Dies(p) => DiesKeeps(s, p);
    case Elapse(d) => TimeKeeps(s, Step(s, c, e));
    case ShutdownCloses => CloseSideKeeps(s);
  }

  lemma TimeKeeps(s: Sched, s': Sched)
    requires Core(s) && s'.side == s.side && s'.book == s.book && s'.pc == s.pc && s'.evictions == s.evictions
    ensures Core(s')
  {
    hide SideOk, PlaceOk, Distinct;
  }
}
