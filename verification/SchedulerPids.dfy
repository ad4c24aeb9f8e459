/** The process of a slot: whatever state the scheduler is in, a slot's pid is that of a process spawned for the
    slot's own model, and a slot being served has one. */
module SchedulerPids {
  import opened Wrappers
  import opened Fsm
  import opened Slots
  import opened Queue
  import opened StateDb
  import opened Scheduler
  import opened SchedulerInvariant
  import opened SchedulerFrames
  import opened SchedulerTheorems

  /** The slot's process was spawned for its model, and it has one if it is being served. */
  predicate OwnProcess(d: Sidecars, slot: Slot) {
    && (slot.pid.Some? ==> slot.pid.value in d.procs && d.procs[slot.pid.value].tag == slot.modelTag)
    && (Serving(slot.state) ==> slot.pid.Some?)
  }

  predicate PidOk(s: Sched, x: SlotId) {
    x in s.book.slots ==> OwnProcess(s.side, s.book.slots[x])
  }

  /** No process is forgotten or changes its model. */
  ghost predicate TagsKept(d: Sidecars, d': Sidecars) {
    forall p :: p in d.procs ==> p in d'.procs && d'.procs[p].tag == d.procs[p].tag
  }

  predicate CalmAt(b: Book, b': Book, x: SlotId) {
    x in b'.slots ==> x in b.slots && Calm(b.slots[x], b'.slots[x]) && b'.slots[x].modelTag == b.slots[x].modelTag
  }

  lemma CalmPid(s: Sched, s': Sched, x: SlotId)
    requires PidOk(s, x) && CalmAt(s.book, s'.book, x) && TagsKept(s.side, s'.side)
    ensures PidOk(s', x)
  {
  }

  /** Writes that neither assign a process nor start to serve. */
  lemma CalmWrites(x: SlotId)
    ensures forall b, id, to :: !Serving(to) ==> CalmAt(b, Move(b, id, to), x)
    ensures forall b, id, to :: !Serving(to) ==> CalmAt(b, Advance(b, id, to), x)
    ensures forall b, id, v :: CalmAt(b, Settle(b, id, v), x)
    ensures forall b, id :: CalmAt(b, HandOff(b, id), x)
    ensures forall b, id, reason, now :: CalmAt(b, Mark(b, id, reason, now), x)
    ensures forall b, b1, b2 {:trigger CalmAt(b, b1, x), CalmAt(b1, b2, x)} ::
              CalmAt(b, b1, x) && CalmAt(b1, b2, x) ==> CalmAt(b, b2, x)
    ensures forall b :: CalmAt(b, b, x)
  {
  }

  /** The ways out of a slot are calm too. */
  lemma CalmOut(x: SlotId)
    ensures forall s: Sched, how :: CalmAt(s.book, Unwind(s, how).book, x) && TagsKept(s.side, Unwind(s, how).side)
    ensures forall s: Sched, how :: CalmAt(s.book, Leave(s, how).book, x) && TagsKept(s.side, Leave(s, how).side)
    ensures forall s: Sched, id :: CalmAt(s.book, ForceCold(s, id).book, x) && TagsKept(s.side, ForceCold(s, id).side)
    ensures forall s: Sched, id, why ::
              CalmAt(s.book, AfterTeardown(s, id, why).book, x) && TagsKept(s.side, AfterTeardown(s, id, why).side)
    ensures forall s: Sched, id, why ::
              CalmAt(s.book, BeginTeardown(s, id, why).book, x) && TagsKept(s.side, BeginTeardown(s, id, why).side)
  {
    EveryWayOut();
    hide Unwind, Leave, ForceCold, AfterTeardown, BeginTeardown, OutsideKept;
  }

  // ---- the calm steps ----

  lemma {:induction false} StagedCalm(b: Book, ids: seq<SlotId>, x: SlotId)
    ensures CalmAt(b, b.(slots := AllStaged(b.slots, ids)), x)
    decreases ids
  {
    if ids != [] {
      StagedCalm(b, ids[..|ids| - 1], x);
    }
  }

  lemma HeadCalm(s: Sched, c: Config, i: Inputs, x: SlotId)
    requires s.pc.Head?
    ensures CalmAt(s.book, FromHead(s, c, i).book, x) && TagsKept(s.side, FromHead(s, c, i).side)
  {
    CalmWrites(x);
    CalmOut(x);
    PopCalm(s.book, c, x);
    hide CalmAt, Unwind, PopBook, Popped, Advance, Settle;
  }

  lemma PopCalm(b: Book, c: Config, x: SlotId)
    ensures CalmAt(b, PopBook(b, c), x)
    ensures forall b', gone :: CalmAt(b, b', x) ==> CalmAt(b, b'.(gone := gone), x)
  {
    StagedCalm(b, Promoted(b.q, c.stagingMax), x);
    hide AllStaged, Promoted, AfterPop, Popped;
  }

  lemma FreezeCalm(x: SlotId)
    ensures forall b, id, now :: CalmAt(b, Freeze(b, id, now), x)
  {
    forall b, id, now ensures CalmAt(b, Freeze(b, id, now), x) {
      FreezeKept(b, id, now);
      hide Freeze, OutsideKept;
    }
  }

  lemma EndCalm(s: Sched, c: Config, i: Inputs, x: SlotId)
    requires EndsSlot(s.pc)
    ensures CalmAt(s.book, Resume(s, c, i).book, x) && TagsKept(s.side, Resume(s, c, i).side)
  {
    if s.pc.TdTerm? || s.pc.TdVerify? || s.pc.TdAudit? {
      TeardownCalm(s, c, i, x);
      hide Resume;
    } else {
      CalmWrites(x);
      CalmOut(x);
      FreezeCalm(x);
    }
    hide CalmAt, Unwind, Leave, Freeze, Mark;
  }

  lemma TeardownCalm(s: Sched, c: Config, i: Inputs, x: SlotId)
    requires s.pc.TdTerm? || s.pc.TdVerify? || s.pc.TdAudit?
    ensures CalmAt(s.book, Resume(s, c, i).book, x) && TagsKept(s.side, Resume(s, c, i).side)
  {
    CalmWrites(x);
    CalmOut(x);
    hide CalmAt, Unwind, ForceCold, AfterTeardown, Mark;
  }

  lemma CancelCalm(s: Sched, x: SlotId)
    ensures CalmAt(s.book, Cancel(s).book, x) && TagsKept(s.side, Cancel(s).side)
  {
    CalmWrites(x);
    CalmOut(x);
    hide CalmAt, Unwind, Settle, HandOff, Move;
  }

  // ---- the steps that assign a process or start to serve ----

  lemma ActivatePid(s: Sched, id: SlotId, x: SlotId)
    requires PidOk(s, x) && id in s.book.slots && s.book.slots[id].pid.Some?
    ensures PidOk(Activate(s, id), x)
  {
  }

  lemma SpawnPid(s: Sched, id: SlotId, i: Inputs, x: SlotId)
    requires PidOk(s, x) && (i.spawn.Some? ==> i.spawn.value !in s.side.procs)
    ensures PidOk(GateAndSpawn(s, id, i), x)
  {
    CalmWrites(x);
    CalmOut(x);
    var s' := GateAndSpawn(s, id, i);
    if s'.pc == HealthWait(id) && i.gates.Yes? && i.spawn.Some? {
      assert PidOk(s', x);
    } else {
      hide CalmAt, Unwind, Advance, PidOk;
      CalmPid(s, s', x);
    }
  }

  lemma LoadAuditPid(s: Sched, i: Inputs, x: SlotId)
    requires Inv(s) && s.pc.LoadAudit? && PidOk(s, x) && (i.spawn.Some? ==> i.spawn.value !in s.side.procs)
    ensures PidOk(FromLoadAudit(s, s.pc.id, i), x)
  {
    SpawnPid(s, s.pc.id, i, x);
    hide GateAndSpawn, PlaceOk, Distinct, PcOk;
  }

  lemma HealthPid(s: Sched, i: Inputs, x: SlotId)
    requires s.pc.HealthWait? && PidOk(s, x) && s.pc.id in s.book.slots && s.book.slots[s.pc.id].pid.Some?
    ensures PidOk(FromHealthWait(s, s.pc.id, i), x)
  {
    ActivatePid(s, s.pc.id, x);
    CalmWrites(x);
    CalmOut(x);
    hide CalmAt, Activate, Unwind, Advance, PidOk;
    if !i.healthy.Yes? {
      CalmPid(s, FromHealthWait(s, s.pc.id, i), x);
    }
  }

  /** The rest of the load only moves the slot on. */
  lemma RestOfLoadCalm(s: Sched, c: Config, i: Inputs, x: SlotId)
    requires !s.pc.Head? && !InLoop(s.pc) && !EndsSlot(s.pc)
    requires !s.pc.LoadAudit? && !s.pc.SwapVerify? && !s.pc.HealthWait? && !s.pc.InheritAudit?
    ensures CalmAt(s.book, Resume(s, c, i).book, x) && TagsKept(s.side, Resume(s, c, i).side)
  {
    CalmWrites(x);
    CalmOut(x);
    hide CalmAt, Unwind, BeginTeardown, Advance, Settle, Mark, Move;
  }

  lemma LoadPid(s: Sched, c: Config, i: Inputs, x: SlotId)
    requires Inv(s) && PidOk(s, x) && (i.spawn.Some? ==> i.spawn.value !in s.side.procs)
    requires !s.pc.Head? && !InLoop(s.pc) && !EndsSlot(s.pc)
    ensures PidOk(Resume(s, c, i), x)
  {
    match s.pc
    case LoadAudit(_) => LoadAuditPid(s, i, x);
    case SwapVerify(id) => SpawnPid(s, id, i, x);
    case HealthWait(_) => HealthPid(s, i, x);
    case InheritAudit(id) => ActivatePid(s, id, x);
    case _ =>
      RestOfLoadCalm(s, c, i, x);
      CalmPid(s, Resume(s, c, i), x);
    hide FromLoadAudit, GateAndSpawn, FromHealthWait, Activate, PlaceOk, Distinct, SideOk, PidOk;
  }

  /** A promoted follow-up gets its anchor's process, which is of its own model. */
  lemma PromotePid(s: Sched, at: nat, x: SlotId)
    requires Inv(s) && s.pc.GraceTop? && PidOk(s, x) && at < |s.book.q.staging|
    requires Matches(s.book.slots, s.book.q.staging[at], s.book.slots[s.pc.id].threadId, s.book.slots[s.pc.id].modelTag)
    ensures PidOk(PromoteMatch(s, s.pc.id, at, s.pc.deadline), x)
  {
    AnchorOwns(s);
    hide Inv;
  }

  /** The anchor of a grace window has a process, of its own model. */
  lemma AnchorOwns(s: Sched)
    requires Inv(s) && s.pc.GraceTop?
    ensures s.pc.id in s.book.slots && s.book.slots[s.pc.id].pid.Some? && OwnProcess(s.side, s.book.slots[s.pc.id])
  {
    hide PlaceOk, Distinct;
  }

  lemma GraceTopPid(s: Sched, c: Config, x: SlotId)
    requires Inv(s) && s.pc.GraceTop? && PidOk(s, x)
    ensures PidOk(FromGraceTop(s, c, s.pc.id, s.pc.deadline), x)
  {
    var id, slot := s.pc.id, s.book.slots[s.pc.id];
    var found := FirstMatch(s.book.q.staging, s.book.slots, slot.threadId, slot.modelTag);
    if found.Some? {
      PromotePid(s, found.value, x);
    }
    LeaveGraceCalm(s, c, id, x);
    hide PidOk, PromoteMatch, LeaveGrace, FirstMatch, Inv;
    CalmPid(s, LeaveGrace(s, c, id), x);
    SleepPid(s, x);
  }

  lemma SleepPid(s: Sched, x: SlotId)
    requires PidOk(s, x)
    ensures forall pc :: PidOk(s.(pc := pc), x)
  {
  }

  lemma LeaveGraceCalm(s: Sched, c: Config, id: SlotId, x: SlotId)
    ensures CalmAt(s.book, LeaveGrace(s, c, id).book, x) && TagsKept(s.side, LeaveGrace(s, c, id).side)
  {
    CalmWrites(x);
    CalmOut(x);
    hide CalmAt, BeginTeardown, Move;
  }

  lemma MatchAuditPid(s: Sched, x: SlotId)
    requires Inv(s) && s.pc.MatchAudit? && PidOk(s, x)
    ensures PidOk(FromMatchAudit(s, s.pc.id, s.pc.m, s.pc.deadline), x)
  {
    hide PlaceOk, Distinct, SideOk;
  }

  lemma LoopCalm(s: Sched, c: Config, i: Inputs, x: SlotId)
    requires InLoop(s.pc) && !s.pc.GraceTop? && !s.pc.MatchAudit?
    ensures CalmAt(s.book, Resume(s, c, i).book, x) && TagsKept(s.side, Resume(s, c, i).side)
  {
    CalmWrites(x);
    if s.pc.MatchGrace? {
      ExtendedCalm(s.book, s.pc.m, x);
    }
    hide CalmAt, Advance, Settle, Mark;
  }

  lemma ExtendedCalm(b: Book, m: SlotId, x: SlotId)
    ensures m in b.slots ==> forall n: nat :: CalmAt(b, b.(slots := b.slots[m := b.slots[m].(extensions := n)]), x)
  {
  }

  // ---- every step ----

  lemma WorkerPid(s: Sched, c: Config, i: Inputs, x: SlotId)
    requires Inv(s) && PidOk(s, x) && (i.spawn.Some? ==> i.spawn.value !in s.side.procs)
    ensures PidOk(Resume(s, c, i), x)
  {
    hide Inv, PidOk;
    var s' := Resume(s, c, i);
    if s.pc.Head? {
      HeadCalm(s, c, i, x);
      CalmPid(s, s', x);
    } else if s.pc.GraceTop? {
      GraceTopPid(s, c, x);
    } else if s.pc.MatchAudit? {
      MatchAuditPid(s, x);
    } else if InLoop(s.pc) {
      LoopCalm(s, c, i, x);
      CalmPid(s, s', x);
    } else if EndsSlot(s.pc) {
      EndCalm(s, c, i, x);
      CalmPid(s, s', x);
    } else {
      LoadPid(s, c, i, x);
    }
    hide FromHead, FromGraceTop, FromMatchAudit, CalmAt;
  }

  lemma OtherPid(s: Sched, c: Config, e: Event, x: SlotId)
    requires PidOk(s, x) && !e.Worker? && !e.ShutdownAsked?
    ensures PidOk(Step(s, c, e), x)
  {
    if e.Request? {
      SubmitPid(s, c, e, x);
    }
    hide Submit, Landed, Swept;
    LandedCalm(s.book, s.now);
  }

  lemma SubmitPid(s: Sched, c: Config, e: Event, x: SlotId)
    requires PidOk(s, x) && e.Request?
    ensures PidOk(Submit(s, c, e.id, e.threadId, e.modelTag, e.keepAlive, e.wait), x)
  {
    hide Upserted, Admit, AfterEnqueue;
  }

  lemma LandedCalm(b: Book, now: int)
    ensures Landed(b, now).slots == b.slots && forall b, ids :: Swept(b, ids, now).slots == b.slots
  {
  }

  lemma StepPid(s: Sched, c: Config, e: Event, x: SlotId)
    requires Inv(s) && PidOk(s, x) && Allowed(s, e)
    ensures PidOk(Step(s, c, e), x)
  {
    if e.Worker? {
      WorkerPid(s, c, e.i, x);
    } else if e.ShutdownAsked? {
      CancelCalm(s, x);
      CalmPid(s, Cancel(s), x);
    } else {
      OtherPid(s, c, e, x);
      hide Step;
    }
    hide Inv, PidOk, Resume, Cancel, CalmAt;
  }

  lemma {:induction false} PidReached(c: Config, events: seq<Event>, k: nat, x: SlotId)
    requires RunOf(c, events) && k <= |events|
    ensures PidOk(StateAt(c, events, k), x)
    decreases k
  {
    hide Inv, Allowed, Step;
    if k > 0 {
      PidReached(c, events, k - 1, x);
      ReachedOk(c, events, k - 1);
      StepPid(StateAt(c, events, k - 1), c, events[k - 1], x);
      hide PidOk;
    }
  }

  /** At every point of every run, a slot's pid is that of a process spawned for the slot's own model, and a slot
      in ACTIVE or ACTIVE_MATCH has one. */
  lemma SlotsRunOnOwnModel(c: Config, events: seq<Event>, k: nat, x: SlotId)
    requires RunOf(c, events) && k <= |events| && x in StateAt(c, events, k).book.slots
    ensures var s := StateAt(c, events, k);
            var slot := s.book.slots[x];
            && (slot.pid.Some? ==> slot.pid.value in s.side.procs && s.side.procs[slot.pid.value].tag == slot.modelTag)
            && (Serving(slot.state) ==> slot.pid.Some?)
  {
    PidReached(c, events, k, x);
  }
}
