/** What a step leaves alone: futures already done, the rows of slots not in hand, and, on every way out
    of `_process_slot`, the queue, the clock and the grace loop. */
module SchedulerFrames {
  import opened Wrappers
  import opened Fsm
  import opened Slots
  import opened Queue
  import opened StateDb
  import opened Scheduler
  import opened SchedulerInvariant

  /** The slot is or was in ACTIVE. */
  predicate WasActive(s: Slot) {
    s.state == ACTIVE || ACTIVE in s.trail
  }

  /** A slot's labels and the tier it was let in by never change, a future that is done keeps its verdict, and one
      becomes answered only if the slot has been active. */
  predicate Kept(a: Slot, b: Slot) {
    && a.modelTag == b.modelTag && a.threadId == b.threadId && a.keepAlive == b.keepAlive
    && (a.future.Done? ==> b.future == a.future) && (a.future.NoFuture? ==> b.future.NoFuture?)
    && (WasActive(a) ==> WasActive(b)) && (a.trail != [] ==> b.trail != [] && LetInAs(b) == LetInAs(a))
    && (b.future == Done(Answered) ==> a.future == Done(Answered) || WasActive(b))
  }

  /** The slot's process stays the same, and it does not become one being served. */
  predicate Calm(a: Slot, b: Slot) {
    b.pid == a.pid && (Serving(b.state) ==> Serving(a.state))
  }

  ghost predicate SlotsKept(b: Book, b': Book) {
    b'.slots.Keys == b.slots.Keys && forall x :: x in b.slots ==>
        Kept(b.slots[x], b'.slots[x]) && Calm(b.slots[x], b'.slots[x])
  }

  ghost predicate OutsideKept(b: Book, b': Book, ids: set<SlotId>) {
    && (forall x :: x in b.rows && x !in ids ==> x in b'.rows && b'.rows[x] == b.rows[x])
    && (forall x :: x in b.slots && x !in ids ==> x in b'.slots && b'.slots[x] == b.slots[x])
  }

  /** The same processes, spawned for the same models. */
  ghost predicate SameTags(d: Sidecars, d': Sidecars) {
    d'.procs.Keys == d.procs.Keys && forall p :: p in d.procs ==> d'.procs[p].tag == d.procs[p].tag
  }

  /** Inside the grace loop. */
  predicate InLoop(pc: Pc) {
    || pc.GraceTop? || pc.GraceSleep? || pc.MatchAudit? || pc.MatchServe? || pc.MatchGrace? || pc.MatchExtended?
    || pc.MatchPopped?
  }

  /** The slots whose row the worker will still upsert. */
  function Upserting(pc: Pc): set<SlotId> {
    match pc
    case RiskLoading(id) => {id}
    case LoadAudit(id) => {id}
    case InheritAudit(id) => {id}
    case SwapTerm(id, _) => {id}
    case SwapVerify(id) => {id}
    case HealthWait(id) => {id}
    case ActiveAudit(id) => {id}
    case Serve(id) => {id}
    case MatchAudit(_, m, _) => {m}
    case MatchServe(_, m, _) => {m}
    case MatchGrace(_, m, _, _) => {m}
    case MatchExtended(_, m, _) => {m}
    case _ => {}
  }

  /** Nothing is done to rows but ending them. */
  ghost predicate OnlyEnds(b: Book, b': Book) {
    forall x :: x in b'.rows ==> x in b.rows && (b'.rows[x] == b.rows[x] || RowEnded(b', x))
  }

  /** A way out of `_process_slot` that ends rows of `ids` only. */
  ghost predicate WaysOut(s: Sched, s': Sched, ids: set<SlotId>) {
    && SameTags(s.side, s'.side) && s'.side.idle == s.side.idle
    && s'.side.idleExpires == s.side.idleExpires && s'.tasks == s.tasks
    && s'.stop == s.stop && s'.shut == s.shut && s'.book.dropped == s.book.dropped && s'.book.gone == s.book.gone
    && s'.exts == s.exts && s'.waited == s.waited && s'.now == s.now && s'.grace == s.grace
    && (s'.pc.Head? || EndsSlot(s'.pc))
    && s'.book.q == s.book.q && s'.book.reopened == s.book.reopened && s'.book.writing == s.book.writing
    && SlotsKept(s.book, s'.book) && OutsideKept(s.book, s'.book, ids) && OnlyEnds(s.book, s'.book)
  }

  lemma {:induction false} WalkedKept(s: Slot, states: seq<SlotState>)
    ensures Kept(s, Walked(s, states)) && Walked(s, states).pid == s.pid
    decreases states
  {
    if states != [] {
      WalkedKept(Moved(s, states[0]), states[1..]);
    }
  }

  lemma FreezeKept(b: Book, id: SlotId, now: int)
    ensures SlotsKept(b, Freeze(b, id, now)) && OutsideKept(b, Freeze(b, id, now), {id})
    ensures Freeze(b, id, now).q == b.q && Freeze(b, id, now).dropped == b.dropped
    ensures Freeze(b, id, now).gone == b.gone && Freeze(b, id, now).reopened == b.reopened
    ensures Freeze(b, id, now).writing == b.writing && OnlyEnds(b, Freeze(b, id, now))
  {
    if id in b.slots {
      WalkIsKept(b.slots[id]);
      OneKept(b, id, Walked(b.slots[id], ColdWalk(b.slots[id].state, 4)));
    }
    hide Walked, ColdWalk, Kept, Calm;
  }

  lemma OneKept(b: Book, id: SlotId, to: Slot)
    requires id in b.slots && Kept(b.slots[id], to) && Calm(b.slots[id], to)
    ensures SlotsKept(b, b.(slots := b.slots[id := to])) && OutsideKept(b, b.(slots := b.slots[id := to]), {id})
  {
  }

  lemma WalkIsKept(s: Slot)
    ensures Kept(s, Walked(s, ColdWalk(s.state, 4))) && Calm(s, Walked(s, ColdWalk(s.state, 4)))
  {
    WalkedKept(s, ColdWalk(s.state, 4));
    WalkedEnds(s, 4);
    ColdWalkReachesCold(s.state);
    hide Walked, ColdWalk, ColdEnd;
  }

  lemma ForceColdOut(s: Sched, id: SlotId)
    ensures WaysOut(s, ForceCold(s, id), {id})
  {
    FreezeKept(s.book, id, s.now);
    SameKept(s.book, {id});
    hide Freeze, SlotsKept, OutsideKept, OnlyEnds;
  }

  lemma KeptOnward(b: Book, b1: Book, b2: Book, ids: set<SlotId>)
    requires SlotsKept(b, b1) && OutsideKept(b, b1, ids) && SlotsKept(b1, b2) && OutsideKept(b1, b2, ids)
    ensures SlotsKept(b, b2) && OutsideKept(b, b2, ids)
  {
  }

  lemma SettleKept(b: Book, id: SlotId, v: Verdict)
    requires v != Answered
    ensures var b' := Settle(b, id, v);
            b' == b.(slots := b'.slots) && SlotsKept(b, b') && OutsideKept(b, b', {id})
  {
    SameKept(b, {id});
    hide SlotsKept, OutsideKept;
    if id in b.slots {
      OneKept(b, id, Settled(b.slots[id], v));
    }
  }

  /** Failing a caller first changes nothing else. */
  lemma SettledFirst(s: Sched, b: Book, s': Sched, ids: set<SlotId>)
    requires b == s.book.(slots := b.slots) && SlotsKept(s.book, b) && OutsideKept(s.book, b, ids)
    requires WaysOut(s.(book := b), s', ids)
    ensures WaysOut(s, s', ids)
  {
    KeptOnward(s.book, b, s'.book, ids);
    hide SlotsKept, OutsideKept, SameTags;
  }

  lemma LeaveOut(s: Sched, how: Leaving)
    ensures WaysOut(s, Leave(s, how), LeftBy(how))
  {
    SameKept(s.book, LeftBy(how));
    hide SlotsKept, OutsideKept, ForceCold;
    if how.Raised? {
      LeaveRaisedOut(s, how.id);
    }
  }

  lemma LeaveRaisedOut(s: Sched, id: SlotId)
    ensures WaysOut(s, Leave(s, Raised(id)), {id})
  {
    var b := Settle(s.book, id, Failed("worker"));
    SettleKept(s.book, id, Failed("worker"));
    ForceColdOut(s.(book := b), id);
    SameKept(b, {id});
    hide SlotsKept, OutsideKept, ForceCold, Settle;
    SettledFirst(s, b, Leave(s, Raised(id)), {id});
  }

  lemma UnwindOut(s: Sched, how: Leaving)
    ensures WaysOut(s, Unwind(s, how), LeftBy(how))
  {
    LeaveOut(s.(activeSlot := None, side := s.side.(active := None)), how);
    SameKept(s.book, LeftBy(how));
    hide Leave, SlotsKept, OutsideKept, OnlyEnds;
  }

  lemma SameKept(b: Book, ids: set<SlotId>)
    ensures SlotsKept(b, b) && OutsideKept(b, b, ids) && OnlyEnds(b, b)
  {
  }

  lemma SettledUnwindOut(s: Sched, id: SlotId, v: Verdict)
    requires v != Answered
    ensures WaysOut(s, Unwind(s.(book := Settle(s.book, id, v)), Returned), {id})
  {
    var b := Settle(s.book, id, v);
    hide SlotsKept, OutsideKept, Unwind;
    UnwindOut(s.(book := b), Returned);
    SettleKept(s.book, id, v);
    hide Settle;
    FewerKept(b, Unwind(s.(book := b), Returned).book, id);
    SettledFirst(s, b, Unwind(s.(book := b), Returned), {id});
  }

  lemma AfterTeardownOut(s: Sched, id: SlotId, why: Why)
    ensures WaysOut(s, AfterTeardown(s, id, why), {id})
  {
    hide SlotsKept, OutsideKept, ForceCold, Unwind, Settle;
    match why
    case LoadFail => SettledUnwindOut(s, id, Failed("loading-fail-health-timeout"));
    case GraceOver => SameKept(s.book, {id});
    case Uncaught => ForceColdOut(s, id);
  }

  lemma FewerKept(b: Book, b': Book, id: SlotId)
    requires OutsideKept(b, b', {})
    ensures OutsideKept(b, b', {id})
  {
  }

  lemma BeginTeardownOut(s: Sched, id: SlotId, why: Why)
    ensures WaysOut(s, BeginTeardown(s, id, why), {id})
  {
    AfterTeardownOut(s, id, why);
    hide AfterTeardown;
  }

  /** All of them at once. */
  lemma EveryWayOut()
    ensures forall s, how :: WaysOut(s, Unwind(s, how), LeftBy(how))
    ensures forall s, how :: WaysOut(s, Leave(s, how), LeftBy(how))
    ensures forall s, id :: WaysOut(s, ForceCold(s, id), {id})
    ensures forall s, id, why :: WaysOut(s, AfterTeardown(s, id, why), {id})
    ensures forall s, id, why :: WaysOut(s, BeginTeardown(s, id, why), {id})
  {
    forall s, how ensures WaysOut(s, Unwind(s, how), LeftBy(how)) && WaysOut(s, Leave(s, how), LeftBy(how)) {
      UnwindOut(s, how);
      LeaveOut(s, how);
    }
    forall s, id ensures WaysOut(s, ForceCold(s, id), {id}) {
      ForceColdOut(s, id);
    }
    forall s, id, why ensures WaysOut(s, AfterTeardown(s, id, why), {id})
        && WaysOut(s, BeginTeardown(s, id, why), {id}) {
      AfterTeardownOut(s, id, why);
      BeginTeardownOut(s, id, why);
    }
  }

  /** No worker step touches the stop flag, the shutdown or what it dropped, and only two spawn. */
  ghost predicate WorkerFrame(s: Sched, s': Sched) {
    && s'.stop == s.stop && s'.shut == s.shut && s'.book.dropped == s.book.dropped
    && (s'.side.procs.Keys != s.side.procs.Keys ==> s.pc.SwapVerify? || (s.pc.LoadAudit? && s.side.idle.None?))
  }

  lemma ResumeFrame(s: Sched, c: Config, i: Inputs)
    ensures WorkerFrame(s, Resume(s, c, i))
  {
    if s.pc.Head? {
      HeadFrame(s, c, i);
    } else if s.pc.GraceTop? {
      GraceTopFrame(s, c);
    } else if InLoop(s.pc) {
      LoopFrame(s, c, i);
    } else if EndsSlot(s.pc) {
      EndFrame(s, c, i);
    } else {
      LoadFrame(s, c, i);
    }
  }

  /** The points from which the worker is on its way out of the slot. */
  predicate EndsSlot(pc: Pc) {
    || pc.MatchCancel? || pc.IdleAudit? || pc.ColdIdleAudit? || pc.TdTerm? || pc.TdVerify? || pc.TdAudit? || pc.FinTerm?
    || pc.FcTerm? || pc.FcAudit? || pc.Drift? || pc.Exited? || pc.HeadSleep? || pc.EvictAudit?
  }

  lemma LoopFrame(s: Sched, c: Config, i: Inputs)
    requires InLoop(s.pc) && !s.pc.GraceTop?
    ensures WorkerFrame(s, Resume(s, c, i))
  {
  }

  lemma EndFrame(s: Sched, c: Config, i: Inputs)
    requires EndsSlot(s.pc)
    ensures WorkerFrame(s, Resume(s, c, i))
  {
    EveryWayOut();
    hide Unwind, Leave, ForceCold, AfterTeardown, BeginTeardown, SlotsKept, OutsideKept, OnlyEnds;
  }

  lemma LoadFrame(s: Sched, c: Config, i: Inputs)
    requires !s.pc.Head? && !InLoop(s.pc) && !EndsSlot(s.pc)
    ensures WorkerFrame(s, Resume(s, c, i))
  {
    EveryWayOut();
    DroppedKept();
    hide Unwind, Leave, ForceCold, AfterTeardown, BeginTeardown, SlotsKept, OutsideKept, OnlyEnds, Advance, HandOff,
        SetPid, Settle, Mark, Move, GateAndSpawn;
    if s.pc.LoadAudit? || s.pc.SwapVerify? {
      GateFrame(s, s.pc.id, i);
    }
  }

  lemma GateFrame(s: Sched, id: SlotId, i: Inputs)
    ensures var s' := GateAndSpawn(s, id, i);
            s'.stop == s.stop && s'.shut == s.shut && s'.book.dropped == s.book.dropped
  {
    EveryWayOut();
    DroppedKept();
    hide Unwind, SlotsKept, OutsideKept, OnlyEnds, SameTags, Advance, SetPid;
  }

  lemma DroppedKept()
    ensures forall b, id, to :: Advance(b, id, to).dropped == b.dropped
    ensures forall b, id :: HandOff(b, id).dropped == b.dropped
    ensures forall b, id, pid :: SetPid(b, id, pid).dropped == b.dropped
    ensures forall b, id, v :: Settle(b, id, v).dropped == b.dropped
    ensures forall b, id, reason, now :: Mark(b, id, reason, now).dropped == b.dropped
    ensures forall b, id, to :: Move(b, id, to).dropped == b.dropped
  {
  }

  lemma HeadFrame(s: Sched, c: Config, i: Inputs)
    requires s.pc.Head?
    ensures WorkerFrame(s, FromHead(s, c, i))
  {
    EveryWayOut();
    hide Unwind, Leave, ForceCold, AfterTeardown, BeginTeardown, SlotsKept, OutsideKept, OnlyEnds, Popped, AfterPop;
  }

  lemma GraceTopFrame(s: Sched, c: Config)
    requires s.pc.GraceTop?
    ensures WorkerFrame(s, FromGraceTop(s, c, s.pc.id, s.pc.deadline))
  {
    EveryWayOut();
    hide BeginTeardown, FirstMatch, SlotsKept, OutsideKept;
  }

  lemma CancelFrame(s: Sched)
    ensures Cancel(s).stop && Cancel(s).shut == Asked && Cancel(s).book.dropped == s.book.dropped
    ensures Cancel(s).side.procs.Keys == s.side.procs.Keys
  {
    EveryWayOut();
    hide Unwind, SlotsKept, OutsideKept;
  }
}
