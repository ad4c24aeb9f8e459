/** What a load does: which process it inherits or replaces, what a gate or a failed health check keeps it from, and
    how a refusal ends. */
module SchedulerLoad {
  import opened Wrappers
  import opened Fsm
  import opened Slots
  import opened Queue
  import opened StateDb
  import opened Timers
  import opened Scheduler
  import opened SchedulerInvariant
  import opened SchedulerQueue
  import opened SchedulerFrames
  import opened SchedulerTheorems
  import opened SchedulerPids
  import opened SchedulerRows

  /** The k-th event is a stretch of the worker. */
  lemma WorkerStep(c: Config, events: seq<Event>, k: nat)
    requires RunOf(c, events) && k < |events| && events[k].Worker?
    ensures var s, i := StateAt(c, events, k), events[k].i;
            && Inv(s) && ConfigOk(c) && (i.spawn.Some? ==> i.spawn.value !in s.side.procs)
            && (Awaited(s.pc).Some? ==> s.book.writing.None?)
            && StateAt(c, events, k + 1) == Resume(s, c, i)
  {
    ReachedOk(c, events, k);
    hide Inv, Resume, StateAt;
  }

  // ---- spawns and their gates ----

  /** The worker is about to spawn for this slot: nothing is parked, or what was parked has been swapped out. */
  predicate SpawnDue(s: Sched, id: SlotId) {
    s.pc == SwapVerify(id) || (s.pc == LoadAudit(id) && s.side.idle.None?)
  }

  /** A process is added if and only if the gates say yes and the spawn succeeds; it is then the slot's, of the slot's
      model, and held. If the gates say no, no process and no holder is touched and the slot has failed to load. */
  predicate GatedSpawn(s: Sched, s': Sched, i: Inputs, id: SlotId) {
    && id in s.book.slots && id in s'.book.slots
    && var was, slot := s.book.slots[id], s'.book.slots[id];
       if i.gates == Yes && i.spawn.Some? then
         && s'.side.procs == s.side.procs[i.spawn.value := Proc(was.modelTag, true, false)]
         && s'.side.active == i.spawn && slot.pid == i.spawn && slot.state == LOADING && s'.pc == HealthWait(id)
       else
         && s'.side.procs.Keys == s.side.procs.Keys && slot.pid == was.pid && !s'.pc.HealthWait?
         && (i.gates == No ==> s'.side == s.side && slot.state == LOADING_FAIL && s'.pc == RefuseAudit(id))
  }

  lemma GatesDecide(c: Config, events: seq<Event>, k: nat, id: SlotId)
    requires RunOf(c, events) && k < |events| && events[k].Worker? && SpawnDue(StateAt(c, events, k), id)
    ensures GatedSpawn(StateAt(c, events, k), StateAt(c, events, k + 1), events[k].i, id)
  {
    hide Inv, Resume, GateAndSpawn, GatedSpawn, RunOf, StateAt, SpawnDue;
    var s, i := StateAt(c, events, k), events[k].i;
    WorkerStep(c, events, k);
    AtLoading(s, id);
    GateOutcome(s, id, i);
    SpawnsHere(s, c, i, id);
  }

  lemma SpawnsHere(s: Sched, c: Config, i: Inputs, id: SlotId)
    requires SpawnDue(s, id)
    ensures Resume(s, c, i) == GateAndSpawn(s, id, i)
  {
    hide GateAndSpawn;
  }

  lemma AtLoading(s: Sched, id: SlotId)
    requires Inv(s) && SpawnDue(s, id)
    ensures At(s.book, id, LOADING) && s.book.slots[id].pid.None?
  {
    hide SideOk, BookOk, CountOk, WritingOk;
  }

  lemma GateOutcome(s: Sched, id: SlotId, i: Inputs)
    requires At(s.book, id, LOADING) && (i.spawn.Some? ==> i.spawn.value !in s.side.procs)
    ensures GatedSpawn(s, GateAndSpawn(s, id, i), i, id)
  {
    UnwindOut(s, Raised(id));
    hide Unwind, OutsideKept, OnlyEnds, Kept;
  }

  /** Over every run: only a worker whose gates said yes and whose spawn succeeded adds a process. */
  lemma SpawnsAreGated(c: Config, events: seq<Event>, k: nat)
    requires RunOf(c, events) && k < |events|
    requires StateAt(c, events, k + 1).side.procs.Keys != StateAt(c, events, k).side.procs.Keys
    ensures events[k].Worker? && events[k].i.gates == Yes && events[k].i.spawn.Some?
    ensures StateAt(c, events, k + 1).side.procs.Keys
         == StateAt(c, events, k).side.procs.Keys + {events[k].i.spawn.value}
  {
    var s := StateAt(c, events, k);
    ReachedOk(c, events, k);
    SpawnPoint(s, c, events[k]);
    assert events[k].Worker? by {
      OnlyWorkerSpawns(s, c, events[k]);
    }
    if s.pc.SwapVerify? || s.pc.LoadAudit? {
      GatesDecide(c, events, k, s.pc.id);
    }
    hide Inv, Step, StateAt;
  }

  lemma OnlyWorkerSpawns(s: Sched, c: Config, e: Event)
    requires Step(s, c, e).side.procs.Keys != s.side.procs.Keys
    ensures e.Worker?
  {
    if e.ShutdownAsked? {
      CancelFrame(s);
    } else if e.Request? {
      SubmitSide(s, c, e.id, e.threadId, e.modelTag, e.keepAlive, e.wait);
    } else if e.ShutdownCloses? {
      CloseSide(s);
    }
    hide Cancel, Submit, Close, Resume;
  }

  // ---- refusals ----

  /** Between its stretches nothing but a cancellation moves the worker, and no other task adds a process. */
  lemma {:induction false} WorkerWaits(c: Config, events: seq<Event>, j: nat, k: nat, id: SlotId)
    requires RunOf(c, events) && j <= k <= |events|
    requires forall i :: j <= i < k ==> !events[i].Worker? && events[i] != ShutdownAsked
    requires id in StateAt(c, events, j).book.slots
    ensures var s, s' := StateAt(c, events, j), StateAt(c, events, k);
            && s'.pc == s.pc && s'.side.procs.Keys == s.side.procs.Keys && s'.side.active == s.side.active
            && id in s'.book.slots && s'.book.slots[id].state == s.book.slots[id].state
    decreases k
  {
    if j < k {
      WorkerWaits(c, events, j, k - 1, id);
      ReachedOk(c, events, k - 1);
      OtherTask(StateAt(c, events, k - 1), c, events[k - 1], id);
      hide Inv, Step, StateAt, RunOf;
    }
  }

  lemma OtherTask(s: Sched, c: Config, e: Event, id: SlotId)
    requires !e.Worker? && e != ShutdownAsked && id in s.book.slots && Allowed(s, e)
    ensures var s' := Step(s, c, e);
            && s'.pc == s.pc && s'.side.procs.Keys == s.side.procs.Keys && s'.side.active == s.side.active
            && id in s'.book.slots && s'.book.slots[id].state == s.book.slots[id].state
  {
    if e.Request? {
      SubmitSide(s, c, e.id, e.threadId, e.modelTag, e.keepAlive, e.wait);
      SubmitLeaves(s, c, e, id);
    }
    TakenIdle(s.side);
    hide Resume, Cancel, Submit, TakeIdle, Upsert;
  }

  lemma SubmitLeaves(s: Sched, c: Config, e: Event, id: SlotId)
    requires e.Request? && e.id !in s.book.slots && id in s.book.slots
    ensures var b := Submit(s, c, e.id, e.threadId, e.modelTag, e.keepAlive, e.wait).book;
            id in b.slots && b.slots[id] == s.book.slots[id]
  {
    hide Upserted, Admit, AfterEnqueue;
  }

  lemma TakenIdle(d: Sidecars)
    ensures TakeIdle(d).procs.Keys == d.procs.Keys && TakeIdle(d).active == d.active
  {
  }

  /** How a refusal before any spawn ends, by the audit that it comes from. */
  function RefusalReason(pc: Pc): string {
    if pc.RiskFail? then "manifest_not_found" else "safety_gate_refused"
  }

  /** The slot is POPPED, its row ended for this reason, its caller failed with it unless he is gone; no process is
      touched and the idle holder keeps what it has. */
  predicate RefusalDone(s: Sched, s': Sched, id: SlotId, reason: string) {
    && id in s.book.slots && At(s'.book, id, POPPED) && id in s'.book.rows
    && s'.book.rows[id].state == COLD && s'.book.rows[id].endedAt == Some(s.now)
    && s'.book.rows[id].endReason == Some(reason)
    && s'.book.slots[id].future == (if s.book.slots[id].future == Pending then Done(Failed(reason))
                                    else s.book.slots[id].future)
    && s'.side.procs.Keys == s.side.procs.Keys && s'.side.idle == s.side.idle
  }

  lemma RefusalEnds(c: Config, events: seq<Event>, k: nat)
    requires RunOf(c, events) && k < |events| && events[k].Worker?
    requires StateAt(c, events, k).pc.RiskFail? || StateAt(c, events, k).pc.RefuseAudit?
    ensures var s := StateAt(c, events, k);
            RefusalDone(s, StateAt(c, events, k + 1), s.pc.id, RefusalReason(s.pc))
  {
    var s := StateAt(c, events, k);
    WorkerStep(c, events, k);
    AtRefusal(s);
    RefuseDone(s, s.pc.id, RefusalReason(s.pc));
    assert Resume(s, c, events[k].i) == Refuse(s, s.pc.id, RefusalReason(s.pc)) by {
      hide Refuse, Inv, RunOf, StateAt;
    }
    hide Inv, Resume, Refuse, RefusalDone, StateAt;
  }

  lemma AtRefusal(s: Sched)
    requires Inv(s) && (s.pc.RiskFail? || s.pc.RefuseAudit?)
    ensures At(s.book, s.pc.id, LOADING_FAIL) && s.pc.id in s.book.rows
  {
    HandFacts(s.book, Hand(s.pc), s.pc.id);
    hide SideOk, BookOk, CountOk, WritingOk;
  }

  lemma RefuseDone(s: Sched, id: SlotId, reason: string)
    requires At(s.book, id, LOADING_FAIL) && id in s.book.rows
    ensures RefusalDone(s, Refuse(s, id, reason), id, reason)
  {
    hide Alive;
  }

  /** A load that the gates refuse: whatever happens until the worker's next stretch, and unless it is cancelled before,
      that stretch ends the row, fails the caller, and no process was added. */
  lemma GateRefusalIsFinal(c: Config, events: seq<Event>, j: nat, k: nat, id: SlotId)
    requires RunOf(c, events) && j < k < |events| && events[j].Worker? && events[k].Worker?
    requires SpawnDue(StateAt(c, events, j), id) && events[j].i.gates == No
    requires forall i :: j < i < k ==> !events[i].Worker? && events[i] != ShutdownAsked
    ensures RefusalDone(StateAt(c, events, k), StateAt(c, events, k + 1), id, "safety_gate_refused")
    ensures StateAt(c, events, k + 1).side.procs.Keys == StateAt(c, events, j).side.procs.Keys
    ensures StateAt(c, events, k).side.active == StateAt(c, events, j).side.active
  {
    GatesDecide(c, events, j, id);
    WorkerWaits(c, events, j + 1, k, id);
    RefusalEnds(c, events, k);
    hide RunOf, StateAt, SpawnDue;
  }

  // ---- inheriting the parked process ----

  /** A load finds a process parked. It inherits that process, touching no other and starting none, if and only if it
      is of the slot's own model and its window has not run out; otherwise it is sent SIGTERM before anything is
      spawned. */
  predicate InheritOrSwap(s: Sched, s': Sched, id: SlotId) {
    && id in s.book.slots && id in s'.book.slots && s.side.idle.Some? && s.side.idle.value in s.side.procs
    && s'.side.idle.None?
    && var p, slot := s.side.idle.value, s.book.slots[id];
       var fits := s.side.procs[p].tag == slot.modelTag && s.side.idleExpires.Some? && s.now < s.side.idleExpires.value;
       && (s'.side.active == Some(p) <==> fits)
       && if fits then s'.side.procs == s.side.procs && s'.book.slots[id].pid == Some(p) && s'.pc == InheritAudit(id)
          else Terminating(s'.side, p) && s'.side.procs.Keys == s.side.procs.Keys && s'.side.active == s.side.active
               && s'.book == s.book && s'.pc == SwapTerm(id, p)
  }

  lemma InheritsExactly(c: Config, events: seq<Event>, k: nat, id: SlotId)
    requires RunOf(c, events) && k < |events| && events[k].Worker?
    requires StateAt(c, events, k).pc == LoadAudit(id) && StateAt(c, events, k).side.idle.Some?
    ensures InheritOrSwap(StateAt(c, events, k), StateAt(c, events, k + 1), id)
  {
    var s := StateAt(c, events, k);
    WorkerStep(c, events, k);
    LoadFindsIdle(s, id);
    LoadOutcome(s, id, events[k].i);
    assert Resume(s, c, events[k].i) == FromLoadAudit(s, id, events[k].i) by {
      hide FromLoadAudit, Inv, RunOf, StateAt;
    }
    hide Inv, Resume, FromLoadAudit, InheritOrSwap, StateAt;
  }

  lemma LoadFindsIdle(s: Sched, id: SlotId)
    requires Inv(s) && s.pc == LoadAudit(id) && s.side.idle.Some?
    ensures At(s.book, id, LOADING) && s.side.active.None? && s.side.idle.value in s.side.procs
    ensures s.side.procs[s.side.idle.value].tag == s.side.idleTag
  {
    hide BookOk, CountOk, WritingOk;
  }

  lemma LoadOutcome(s: Sched, id: SlotId, i: Inputs)
    requires At(s.book, id, LOADING) && s.side.active.None? && s.side.idle.Some? && s.side.idle.value in s.side.procs
    requires s.side.procs[s.side.idle.value].tag == s.side.idleTag
    ensures InheritOrSwap(s, FromLoadAudit(s, id, i), id)
  {
    hide GateAndSpawn;
  }

  /** The swap goes on only if its SIGTERM call returned, which is when the process is gone; if it raised, that is
      noted, and the slot is not loaded. */
  predicate SwapStep(s: Sched, s': Sched, id: SlotId, p: Pid, returned: bool) {
    && s'.side.procs.Keys == s.side.procs.Keys
    && if returned then s'.pc == SwapVerify(id) && !Alive(s'.side, p) && s'.book == s.book
       else p in s'.side.raised && Alive(s'.side, p) == Alive(s.side, p) && !s'.pc.SwapVerify? && !s'.pc.HealthWait?
  }

  lemma SwapsExactly(c: Config, events: seq<Event>, k: nat, id: SlotId, p: Pid)
    requires RunOf(c, events) && k < |events| && events[k].Worker? && StateAt(c, events, k).pc == SwapTerm(id, p)
    ensures SwapStep(StateAt(c, events, k), StateAt(c, events, k + 1), id, p, events[k].i.termReturned)
  {
    var s := StateAt(c, events, k);
    WorkerStep(c, events, k);
    SwapOutcome(s, id, p, events[k].i);
    assert Resume(s, c, events[k].i) == FromSwapTerm(s, id, p, events[k].i) by {
      hide FromSwapTerm, Inv, RunOf, StateAt;
    }
    hide Inv, Resume, FromSwapTerm, SwapStep, StateAt;
  }

  lemma SwapOutcome(s: Sched, id: SlotId, p: Pid, i: Inputs)
    ensures SwapStep(s, FromSwapTerm(s, id, p, i), id, p, i.termReturned)
  {
    hide Freeze, Settle;
  }

  // ---- the health check ----

  /** At the health wait the slot becomes ACTIVE if and only if the check says yes; on a no it has failed to load; no
      answer touches a process before the next stretch but an exception, which may start the SIGTERM call. */
  predicate HealthDone(s: Sched, s': Sched, healthy: Verdict3, id: SlotId) {
    && id in s'.book.slots && (s'.book.slots[id].state == ACTIVE <==> healthy == Yes)
    && (healthy == No ==> s'.book.slots[id].state == LOADING_FAIL && s'.pc == FailAudit(id))
    && (healthy != Raises ==> s'.side == s.side) && s'.side.procs.Keys == s.side.procs.Keys
  }

  lemma HealthDecides(c: Config, events: seq<Event>, k: nat, id: SlotId)
    requires RunOf(c, events) && k < |events| && events[k].Worker? && StateAt(c, events, k).pc == HealthWait(id)
    ensures HealthDone(StateAt(c, events, k), StateAt(c, events, k + 1), events[k].i.healthy, id)
  {
    var s := StateAt(c, events, k);
    WorkerStep(c, events, k);
    AtHealthWait(s, id);
    HealthOutcome(s, id, events[k].i);
    assert Resume(s, c, events[k].i) == FromHealthWait(s, id, events[k].i) by {
      hide FromHealthWait, Inv, RunOf, StateAt;
    }
    hide Inv, Resume, FromHealthWait, HealthDone, StateAt;
  }

  lemma AtHealthWait(s: Sched, id: SlotId)
    requires Inv(s) && s.pc == HealthWait(id)
    ensures At(s.book, id, LOADING)
  {
    hide SideOk, BookOk, CountOk, WritingOk;
  }

  lemma HealthOutcome(s: Sched, id: SlotId, i: Inputs)
    requires At(s.book, id, LOADING)
    ensures HealthDone(s, FromHealthWait(s, id, i), i.healthy, id)
  {
    UnwindOut(s, Raised(id));
    hide Unwind, OutsideKept, OnlyEnds, Kept;
  }

  /** In no step does `x` start to be served. */
  predicate NoNewServing(b: Book, b': Book, x: SlotId) {
    x in b'.slots && Serving(b'.slots[x].state) ==> x in b.slots && Serving(b.slots[x].state)
  }

  lemma CalmServesNone(x: SlotId)
    ensures forall b, b' :: CalmAt(b, b', x) ==> NoNewServing(b, b', x)
    ensures forall b, id, pid :: NoNewServing(b, SetPid(b, id, pid), x)
    ensures forall b, id, pid :: NoNewServing(b, HandOff(SetPid(b, id, pid), id), x)
  {
  }

  lemma LoadServesNone(s: Sched, c: Config, i: Inputs, x: SlotId)
    requires !s.pc.Head? && !InLoop(s.pc) && !EndsSlot(s.pc) && !s.pc.InheritAudit?
    requires s.pc.HealthWait? ==> i.healthy != Yes
    ensures NoNewServing(s.book, Resume(s, c, i).book, x)
  {
    CalmWrites(x);
    CalmOut(x);
    CalmServesNone(x);
    if s.pc.LoadAudit? || s.pc.SwapVerify? || s.pc.HealthWait? {
      SpawnServesNone(s, c, i, x);
    } else {
      RestOfLoadCalm(s, c, i, x);
    }
    hide CalmAt, NoNewServing, Resume;
  }

  lemma SpawnServesNone(s: Sched, c: Config, i: Inputs, x: SlotId)
    requires s.pc.LoadAudit? || s.pc.SwapVerify? || (s.pc.HealthWait? && i.healthy != Yes)
    ensures NoNewServing(s.book, Resume(s, c, i).book, x)
  {
    CalmWrites(x);
    CalmOut(x);
    CalmServesNone(x);
    hide CalmAt, NoNewServing, Unwind, Advance, HandOff, SetPid;
  }

  lemma GraceTopServes(s: Sched, c: Config, x: SlotId)
    requires s.pc.GraceTop?
    ensures var s' := FromGraceTop(s, c, s.pc.id, s.pc.deadline);
            s'.pc == MatchAudit(s.pc.id, x, s.pc.deadline) || NoNewServing(s.book, s'.book, x)
  {
    CalmServesNone(x);
    if s.pc.id in s.book.slots {
      var slot := s.book.slots[s.pc.id];
      var found := FirstMatch(s.book.q.staging, s.book.slots, slot.threadId, slot.modelTag);
      if found.Some? {
        PromoteServes(s, found.value, x);
      }
    }
    LeaveGraceCalm(s, c, s.pc.id, x);
    hide PromoteMatch, LeaveGrace, FirstMatch, CalmAt;
  }

  lemma PromoteServes(s: Sched, at: nat, x: SlotId)
    requires s.pc.GraceTop? && at < |s.book.q.staging|
    ensures var s' := PromoteMatch(s, s.pc.id, at, s.pc.deadline);
            s'.pc == MatchAudit(s.pc.id, x, s.pc.deadline) || NoNewServing(s.book, s'.book, x)
  {
  }

  /** A slot starts to be served only after the health check of its own load said yes, when it inherits a process, or
      when it is promoted onto its anchor's. */
  lemma ServedAfterHealth(c: Config, events: seq<Event>, k: nat, x: SlotId)
    requires RunOf(c, events) && k < |events|
    requires !NoNewServing(StateAt(c, events, k).book, StateAt(c, events, k + 1).book, x)
    ensures var s, s', e := StateAt(c, events, k), StateAt(c, events, k + 1), events[k];
            && e.Worker?
            && (|| (s.pc == HealthWait(x) && e.i.healthy == Yes) || s.pc == InheritAudit(x)
                || (s.pc.GraceTop? && s'.pc == MatchAudit(s.pc.id, x, s.pc.deadline)))
  {
    ReachedOk(c, events, k);
    ServingStep(StateAt(c, events, k), c, events[k], x);
    hide Inv, Step, NoNewServing, StateAt;
  }

  lemma ServingStep(s: Sched, c: Config, e: Event, x: SlotId)
    requires Inv(s) && Allowed(s, e)
    ensures NoNewServing(s.book, Step(s, c, e).book, x) ||
            (&& e.Worker?
             && (|| (s.pc == HealthWait(x) && e.i.healthy == Yes) || s.pc == InheritAudit(x)
                 || (s.pc.GraceTop? && Step(s, c, e).pc == MatchAudit(s.pc.id, x, s.pc.deadline))))
  {
    CalmServesNone(x);
    if e.Worker? {
      WorkerServing(s, c, e.i, x);
    } else if e.ShutdownAsked? {
      CancelCalm(s, x);
    } else {
      OthersServeNone(s, c, e, x);
      hide Step;
    }
    hide Inv, CalmAt, NoNewServing, Resume, Cancel;
  }

  lemma OthersServeNone(s: Sched, c: Config, e: Event, x: SlotId)
    requires !e.Worker? && e != ShutdownAsked && Allowed(s, e)
    ensures NoNewServing(s.book, Step(s, c, e).book, x)
  {
    if e.Request? {
      SubmitServesNone(s, c, e, x);
    }
    hide Resume, Cancel, Submit, TakeIdle, Upsert;
  }

  lemma SubmitServesNone(s: Sched, c: Config, e: Event, x: SlotId)
    requires e.Request? && e.id !in s.book.slots
    ensures NoNewServing(s.book, Submit(s, c, e.id, e.threadId, e.modelTag, e.keepAlive, e.wait).book, x)
  {
    hide Upserted, Admit, AfterEnqueue;
  }

  lemma WorkerServing(s: Sched, c: Config, i: Inputs, x: SlotId)
    requires Inv(s)
    ensures NoNewServing(s.book, Resume(s, c, i).book, x)
         || (s.pc == HealthWait(x) && i.healthy == Yes) || s.pc == InheritAudit(x)
         || (s.pc.GraceTop? && Resume(s, c, i).pc == MatchAudit(s.pc.id, x, s.pc.deadline))
  {
    CalmServesNone(x);
    if s.pc.Head? {
      HeadCalm(s, c, i, x);
    } else if s.pc.GraceTop? {
      GraceTopServes(s, c, x);
    } else if s.pc.MatchAudit? {
      ActivateServes(s, c, i, x);
    } else if InLoop(s.pc) {
      LoopCalm(s, c, i, x);
    } else if EndsSlot(s.pc) {
      EndCalm(s, c, i, x);
    } else if s.pc.InheritAudit? || (s.pc.HealthWait? && i.healthy == Yes) {
      ActivateServes(s, c, i, x);
    } else {
      LoadServesNone(s, c, i, x);
    }
    hide Inv, CalmAt, NoNewServing, FromHead, FromGraceTop;
  }

  lemma ActivateServes(s: Sched, c: Config, i: Inputs, x: SlotId)
    requires Inv(s) && (s.pc.MatchAudit? || s.pc.InheritAudit? || (s.pc.HealthWait? && i.healthy == Yes))
    ensures (!s.pc.MatchAudit? && x == s.pc.id) || NoNewServing(s.book, Resume(s, c, i).book, x)
  {
    hide SideOk, BookOk, CountOk, WritingOk;
  }
}
