/** TurbohaulManager of manager.py in its own form: an object whose methods run from one suspension point to
    the next and update its fields, the queue, the slots, the rows and the grace timer in place. Each method
    is proved to do what the machine of module Scheduler does, so the theorems about runs hold of it. */
module Manager {
  import opened Wrappers
  import opened Fsm
  import opened Slots
  import opened Queue
  import opened StateDb
  import opened Timers
  import opened Scheduler
  import opened SchedulerInvariant
  import opened SchedulerSteps
  import opened SchedulerTheorems

  class TurbohaulManager {
    const c: Config
    const table: SlotTable
    const queue: TurbohaulQueue
    const db: StateDb
    const grace: GraceTimer
    var procs: map<Pid, Proc>
    var activeHandle: Option<Pid>
    var idleHandle: Option<Pid>
    var idleModelTag: string
    var idleExpiresAt: Option<int>
    var activeSlot: Option<SlotId>
    var latestKeepAliveS: Option<int>
    var stop: bool
    var workerEvictions: nat
    // Where the worker is suspended, the clock, and bookkeeping of the run.
    var pc: Pc
    var now: int
    var raised: set<Pid>
    var writing: Option<SlotId>
    var gone: seq<SlotId>
    var dropped: set<SlotId>
    var badMove: bool
    var reopened: bool
    var shut: Shutdown
    var idleTasks: nat
    var exts: nat
    var waited: int

    ghost function Parts(): set<object> {
      {this, table, queue, db, grace}
    }

    ghost predicate Valid()
      reads this, table, queue, db, grace
    {
      && queue.table == table && queue.Valid()
      && queue.stagingMax == c.stagingMax && queue.acceptanceMax == c.acceptanceMax
      && grace.graceSeconds == c.graceSeconds && grace.maxExtensions == c.maxExtensions
    }

    function Side(): Sidecars
      reads this
    {
      Sidecars(procs, activeHandle, idleHandle, idleModelTag, idleExpiresAt, raised)
    }

    function Ledger(): Book
      reads this, table, queue, db
    {
      Book(queue.State(), table.at, db.rows, gone, dropped, writing, badMove, reopened)
    }

    /** The object as a state of the machine. */
    function Snapshot(): Sched
      reads this, table, queue, db, grace
    {
      Sched(Side(), Ledger(), pc, activeSlot, latestKeepAliveS, grace.State(), now, stop, shut, idleTasks,
            workerEvictions, exts, waited)
    }

    /** The machine's invariant, of the object. */
    ghost predicate Sound()
      reads this, table, queue, db, grace
    {
      ConfigOk(c) && Inv(Snapshot())
    }

    /** Every process ever spawned is dead, being terminated, or in a holder. */
    ghost predicate Custody()
      reads this
    {
      forall p :: p in procs ==>
          !procs[p].alive || procs[p].terminating || activeHandle == Some(p) || idleHandle == Some(p)
    }

    /** At most one slot is being answered. */
    ghost predicate ServesOne()
      reads table
    {
      forall x, y :: x in table.at && y in table.at && Serving(table.at[x].state) && Serving(table.at[y].state) ==>
          x == y
    }

    /** Every slot's states are a path of legal transitions, and no illegal one was tried. */
    ghost predicate LegalHistories()
      reads this, table
    {
      !badMove && forall id :: id in table.at ==> LegalHistory(table.at[id])
    }

    lemma SoundObject()
      requires Sound()
      ensures Custody() && ServesOne() && LegalHistories()
    {
      var s := Snapshot();
      assert Custody() by {
        hide PlaceOk, Distinct, PcOk;
      }
      forall x, y | x in table.at && y in table.at && Serving(table.at[x].state)
          && Serving(table.at[y].state) ensures x == y {
        ServingIsOne(s, x, y);
      }
      forall id | id in table.at ensures LegalHistory(table.at[id]) {
        assert PlaceOk(s.book, Hand(s.pc), id);
        hide LegalHistory, Distinct, SideOk, PcOk;
      }
      hide PlaceOk, LegalHistory, Distinct, SideOk, PcOk;
    }

    constructor (c: Config)
      ensures Valid() && Snapshot() == Init() && this.c == c
      ensures fresh(Parts())
    {
      this.c := c;
      var t := new SlotTable();
      var q := new TurbohaulQueue(t, c.stagingMax, c.acceptanceMax);
      var d := new StateDb();
      var g := new GraceTimer(c.graceSeconds, c.maxExtensions);
      table, queue, db, grace := t, q, d, g;
      procs, activeHandle, idleHandle, idleModelTag, idleExpiresAt := map[], None, None, "", None;
      activeSlot, latestKeepAliveS, stop, workerEvictions := None, None, false, 0;
      pc, now, raised, writing, gone, dropped, badMove, reopened := Head, 0, {}, None, [], {}, false, false;
      shut, idleTasks, exts, waited := NotAsked, 0, 0, 0;
    }

    // ---- single writes ----

    /** `fsm.transition`. */
    method Transition(id: SlotId, to: SlotState)
      requires Valid()
      modifies table, this`badMove
      ensures Valid() && Snapshot() == old(Snapshot()).(book := Move(old(Ledger()), id, to))
    {
      if id in table.at && Legal(table.at[id].state, to) {
        table.at := table.at[id := Moved(table.at[id], to)];
      } else {
        badMove := true;
      }
    }

    /** `_audit`: the slot's row is written from the slot. */
    method Audit(id: SlotId)
      requires Valid()
      modifies db`rows, this`reopened
      ensures Valid() && Snapshot() == old(Snapshot()).(book := Upsert(old(Ledger()), id, now))
    {
      if id in table.at {
        reopened := reopened || (id in db.rows && db.rows[id].endedAt.Some?);
        db.UpsertSlot(id, table.at[id].state, table.at[id].pid, now);
      }
    }

    /** `_audit_async`: a thread is given the row. */
    method AuditAsync(id: SlotId)
      requires Valid()
      modifies this`writing
      ensures Valid() && Snapshot() == old(Snapshot()).(book := HandOff(old(Ledger()), id))
    {
      writing := Some(id);
    }

    /** The thread that was given a row writes it. */
    method RunAudit()
      requires Valid()
      modifies db`rows, this`writing, this`reopened
      ensures Valid() && Snapshot() == old(Snapshot()).(book := Landed(old(Ledger()), now))
    {
      if writing.Some? {
        Audit(writing.value);
        writing := None;
      }
    }

    method Proceed(id: SlotId, to: SlotState)
      requires Valid()
      modifies table, this`badMove, this`writing
      ensures Valid() && Snapshot() == old(Snapshot()).(book := Advance(old(Ledger()), id, to))
    {
      Transition(id, to);
      AuditAsync(id);
    }

    method MarkEnded(id: SlotId, reason: string)
      requires Valid()
      modifies db
      ensures Valid() && Snapshot() == old(Snapshot()).(book := Mark(old(Ledger()), id, reason, now))
    {
      db.MarkSlotEnded(id, reason, now);
    }

    /** The guarded `set_result` or `set_exception`. */
    method Resolve(id: SlotId, verdict: Verdict)
      requires Valid()
      modifies table
      ensures Valid() && Snapshot() == old(Snapshot()).(book := Settle(old(Ledger()), id, verdict))
    {
      if id in table.at && table.at[id].future == Pending {
        table.at := table.at[id := table.at[id].(future := Done(verdict))];
      }
    }

    method AssignPid(id: SlotId, pid: Option<Pid>)
      requires Valid()
      modifies table
      ensures Valid() && Snapshot() == old(Snapshot()).(book := Scheduler.SetPid(old(Ledger()), id, pid))
    {
      if id in table.at {
        table.at := table.at[id := table.at[id].(pid := pid)];
      }
    }

    /** A SIGTERM call starts. */
    method BeginTerm(p: Pid)
      requires Valid()
      modifies this`procs
      ensures Valid() && Snapshot() == old(Snapshot()).(side := StartTerm(old(Side()), p))
    {
      if p in procs {
        procs := procs[p := procs[p].(terminating := true)];
      }
    }

    /** The SIGTERM call on the active handle returns or raises. */
    method EndTerm(returned: bool)
      requires Valid()
      modifies this`procs, this`raised
      ensures Valid() && Snapshot() == old(Snapshot()).(side := EndActiveTerm(old(Side()), returned))
    {
      if activeHandle.None? {
        return;
      }
      if !returned {
        raised := raised + {activeHandle.value};
      } else if activeHandle.value in procs {
        procs := procs[activeHandle.value := procs[activeHandle.value].(alive := false)];
      }
    }

    /** The idle holder is emptied and its process sent SIGTERM. */
    method DropIdle()
      requires Valid()
      modifies this
      ensures Valid() && Snapshot() == old(Snapshot()).(side := TakeIdle(old(Side())))
    {
      if idleHandle.Some? {
        BeginTerm(idleHandle.value);
        idleHandle, idleModelTag, idleExpiresAt := None, "", None;
      }
    }

    // ---- ways out of a slot ----

    /** `_force_cold`'s walk and its `mark_slot_ended`. */
    method FreezeSlot(id: SlotId)
      requires Valid()
      modifies table, db
      ensures Valid() && Snapshot() == old(Snapshot()).(book := Freeze(old(Ledger()), id, now))
    {
      if id !in table.at {
        return;
      }
      WalkToCold(id);
      db.MarkSlotEnded(id, "worker-uncaught-exception", now);
    }

    /** At most four hops, each the first legal one on the way to COLD. */
    method WalkToCold(id: SlotId)
      requires Valid() && id in table.at
      modifies table
      ensures Valid()
      ensures table.at == old(table.at)[id := Walked(old(table.at)[id], ColdWalk(old(table.at)[id].state, 4))]
    {
      hide ColdHop, ColdEnd;
      ghost var before, slot := table.at, table.at[id];
      var left := 4;
      while left > 0 && table.at[id].state != COLD
        invariant Valid() && id in table.at && table.at == before[id := table.at[id]] && left >= 0
        invariant Walked(table.at[id], ColdWalk(table.at[id].state, left)) == Walked(slot, ColdWalk(slot.state, 4))
      {
        ColdWalkStep(table.at[id].state, left);
        table.at := table.at[id := Moved(table.at[id], ColdHop(table.at[id].state))];
        left := left - 1;
      }
    }

    /** `_force_cold` up to its first suspension. */
    method ForceColdFirst(id: SlotId)
      requires Valid()
      modifies this, table, db
      ensures Valid() && Snapshot() == ForceCold(old(Snapshot()), id)
    {
      if activeHandle.Some? && id in table.at && table.at[id].pid == activeHandle && !(activeSlot.Some?
          && activeSlot.value != id) {
        BeginTerm(activeHandle.value);
        pc := FcTerm(id);
      } else {
        FreezeSlot(id);
        pc := FcAudit;
      }
    }

    /** The rest of `_force_cold` after its defensive SIGTERM. */
    method ForceColdRest(id: SlotId, i: Inputs)
      requires Valid()
      modifies this, table, db
      ensures Valid() && Snapshot() == FromFcTerm(old(Snapshot()), id, i)
    {
      EndTerm(i.termReturned);
      if i.termReturned {
        activeHandle := None;
      }
      FreezeSlot(id);
      pc := FcAudit;
    }

    /** Back in `worker_loop`. */
    method LeaveSlot(how: Leaving)
      requires Valid()
      modifies this, table, db
      ensures Valid() && Snapshot() == Leave(old(Snapshot()), how)
    {
      hide Settle, ForceCold;
      match how
      case Returned =>
        pc := Head;
      case Cancelled(left) =>
        pc := Exited(left);
      case Raised(id) =>
        Resolve(id, Failed("worker"));
        if activeHandle.Some? {
          BeginTerm(activeHandle.value);
          pc := TdTerm(id, Uncaught);
        } else {
          ForceColdFirst(id);
        }
    }

    /** The finally block of `_process_slot`. */
    method Finally(how: Leaving)
      requires Valid()
      modifies this, table, db
      ensures Valid() && Snapshot() == Unwind(old(Snapshot()), how)
    {
      hide Leave;
      activeSlot := None;
      if activeHandle.Some? && idleHandle != activeHandle && Alive(Side(), activeHandle.value) {
        BeginTerm(activeHandle.value);
        pc := FinTerm(how);
      } else {
        activeHandle := None;
        LeaveSlot(how);
      }
    }

    method FinallyRest(how: Leaving, i: Inputs)
      requires Valid()
      modifies this, table, db
      ensures Valid() && Snapshot() == FromFinTerm(old(Snapshot()), how, i)
    {
      hide Leave;
      EndTerm(i.termReturned);
      if i.termReturned {
        activeHandle := None;
      }
      LeaveSlot(how);
    }

    /** The process is gone: the slot's row is ended. */
    method TeardownVerified(id: SlotId, why: Why)
      requires Valid()
      modifies this`pc, db
      ensures Valid()
      ensures var b := Mark(old(Ledger()), id, TdReason(why), now);
              Snapshot() == old(Snapshot()).(book := b, pc := TdAudit(id, why))
    {
      hide Mark;
      MarkEnded(id, TdReason(why));
      pc := TdAudit(id, why);
    }

    /** The audit of a teardown is written. */
    method TeardownAudited(id: SlotId, why: Why)
      requires Valid()
      modifies this, table, db
      ensures Valid()
      ensures var s := old(Snapshot());
              Snapshot() == AfterTeardown(s.(side := s.side.(active := None)), id, why)
    {
      hide AfterTeardown;
      activeHandle := None;
      TeardownDone(id, why);
    }

    /** What follows `_teardown`. */
    method TeardownDone(id: SlotId, why: Why)
      requires Valid()
      modifies this, table, db
      ensures Valid() && Snapshot() == AfterTeardown(old(Snapshot()), id, why)
    {
      hide Unwind, ForceCold, Settle;
      match why
      case LoadFail =>
        Resolve(id, Failed("loading-fail-health-timeout"));
        Finally(Returned);
      case GraceOver =>
        pc := ColdIdleAudit(id);
      case Uncaught =>
        ForceColdFirst(id);
    }

    /** `_teardown`, if there is a handle to tear down. */
    method Teardown(id: SlotId, why: Why)
      requires Valid()
      modifies this, table, db
      ensures Valid() && Snapshot() == BeginTeardown(old(Snapshot()), id, why)
    {
      hide AfterTeardown;
      if activeHandle.Some? {
        BeginTerm(activeHandle.value);
        pc := TdTerm(id, why);
      } else {
        TeardownDone(id, why);
      }
    }

    method TeardownTermDone(id: SlotId, why: Why, i: Inputs)
      requires Valid()
      modifies this, table, db
      ensures Valid() && Snapshot() == FromTdTerm(old(Snapshot()), id, why, i)
    {
      hide Unwind, ForceCold;
      EndTerm(i.termReturned);
      if i.termReturned {
        pc := TdVerify(id, why);
      } else if why == Uncaught {
        ForceColdFirst(id);
      } else {
        Finally(Raised(id));
      }
    }

    // ---- from the queue to the completion ----

    /** The idle-expiry check: the teardown is left to a task of its own. */
    method Tick()
      requires Valid()
      modifies this`idleExpiresAt, this`idleTasks
      ensures Valid() && Snapshot() == IdleTick(old(Snapshot()))
    {
      if idleHandle.Some? && idleExpiresAt.Some? && now >= idleExpiresAt.value {
        idleExpiresAt := None;
        idleTasks := idleTasks + 1;
      }
    }

    /** `pop_next` under its lock. */
    method PopSlot() returns (popped: Option<SlotId>)
      requires Valid()
      modifies queue, table
      ensures Valid() && Snapshot() == old(Snapshot()).(book := PopBook(old(Ledger()), c))
      ensures popped == Popped(old(queue.State()), c.stagingMax)
    {
      hide AfterPop, Popped, AllStaged, Flagged;
      popped := queue.PopNext();
    }

    /** The eviction of a popped slot up to its audit. */
    method Evict(id: SlotId)
      requires Valid()
      modifies this`gone, this`pc, table
      ensures Valid()
      ensures Snapshot() == old(Snapshot()).(book := Settle(old(Ledger()), id,
                Failed("evicted")).(gone := old(gone) + [id]),
                                             pc := EvictAudit)
    {
      Resolve(id, Failed("evicted"));
      gone := gone + [id];
      pc := EvictAudit;
    }

    /** The head of `worker_loop`. */
    method WorkerHead(i: Inputs)
      requires Valid()
      modifies this, table, queue, db
      ensures Valid() && Snapshot() == FromHead(old(Snapshot()), c, i)
    {
      hide StartSlot, PopBook, Popped, Settle, IdleTick;
      if stop {
        pc := Exited({});
        return;
      }
      var popped := PopSlot();
      if popped.None? {
        Tick();
        pc := HeadSleep;
      } else {
        Handle(popped.value, i);
      }
    }

    /** A popped slot is evicted or processed. */
    method Handle(id: SlotId, i: Inputs)
      requires Valid()
      modifies this, table, db
      ensures Valid()
      ensures var s := old(Snapshot());
              Snapshot() == if id in s.book.slots && s.book.slots[id].evicted then
                              s.(book := Settle(s.book, id, Failed("evicted")).(gone := s.book.gone + [id]),
                                  pc := EvictAudit)
                            else StartSlot(s.(activeSlot := Some(id), latest := None), id, i)
    {
      hide StartSlot, Settle;
      if id in table.at && table.at[id].evicted {
        Evict(id);
      } else {
        activeSlot := Some(id);
        latestKeepAliveS := None;
        ProcessSlot(id, i);
      }
    }

    /** `_process_slot` up to its first suspension. */
    method ProcessSlot(id: SlotId, i: Inputs)
      requires Valid()
      modifies this, table, db
      ensures Valid() && Snapshot() == StartSlot(old(Snapshot()), id, i)
    {
      hide Unwind, Move, HandOff;
      if i.manifest == Invalid {
        Finally(Raised(id));
        return;
      }
      var atRisk := i.manifest == Missing && idleHandle.Some? && idleModelTag != TagOf(Ledger(), id);
      Proceed(id, LOADING);
      pc := if atRisk then RiskLoading(id) else LoadAudit(id);
    }

    /** The idle process becomes the slot's. */
    method Inherit(id: SlotId)
      requires Valid()
      modifies this, table, db
      ensures Valid()
      ensures Snapshot() == old(Snapshot()).(
                side := old(Side()).(active := old(idleHandle), idle := None, idleTag := "", idleExpires := None),
                book := HandOff(Scheduler.SetPid(old(Ledger()), id, old(idleHandle)), id),
                pc := InheritAudit(id))
    {
      hide HandOff, Scheduler.SetPid;
      AssignPid(id, idleHandle);
      AuditAsync(id);
      activeHandle, idleHandle, idleModelTag, idleExpiresAt := idleHandle, None, "", None;
      pc := InheritAudit(id);
    }

    /** Inherit the idle process, swap it out, or go on to spawn. */
    method AfterLoading(id: SlotId, i: Inputs)
      requires Valid()
      modifies this, table, db
      ensures Valid() && Snapshot() == FromLoadAudit(old(Snapshot()), id, i)
    {
      hide GateAndSpawn, HandOff, Scheduler.SetPid, StartTerm;
      if idleHandle.Some? && idleModelTag == TagOf(Ledger(), id) && idleExpiresAt.Some? && now < idleExpiresAt.value {
        Inherit(id);
      } else if idleHandle.Some? {
        var p := idleHandle.value;
        DropIdle();
        pc := SwapTerm(id, p);
      } else {
        Spawn(id, i);
      }
    }

    method SwapDone(id: SlotId, p: Pid, i: Inputs)
      requires Valid()
      modifies this, table, db
      ensures Valid() && Snapshot() == FromSwapTerm(old(Snapshot()), id, p, i)
    {
      hide Unwind;
      if i.termReturned {
        if p in procs {
          procs := procs[p := procs[p].(alive := false)];
        }
        pc := SwapVerify(id);
      } else {
        raised := raised + {p};
        Finally(Raised(id));
      }
    }

    /** The safety gates, then the spawn. */
    method Spawn(id: SlotId, i: Inputs)
      requires Valid()
      modifies this, table, db
      ensures Valid() && Snapshot() == GateAndSpawn(old(Snapshot()), id, i)
    {
      hide Unwind, Move, HandOff, Scheduler.SetPid;
      match i.gates
      case Raises =>
        Finally(Raised(id));
      case No =>
        Proceed(id, LOADING_FAIL);
        pc := RefuseAudit(id);
      case Yes =>
        match i.spawn {
          case None =>
            Finally(Raised(id));
          case Some(p) =>
            procs := procs[p := Proc(TagOf(Ledger(), id), true, false)];
            activeHandle := Some(p);
            AssignPid(id, Some(p));
            pc := HealthWait(id);
        }
    }

    method RefuseSlot(id: SlotId, reason: string)
      requires Valid()
      modifies this, table, db
      ensures Valid() && Snapshot() == Refuse(old(Snapshot()), id, reason)
    {
      hide Unwind, Move, Mark, Settle;
      Transition(id, POPPED);
      MarkEnded(id, reason);
      Resolve(id, Failed(reason));
      Finally(Returned);
    }

    method ActivateSlot(id: SlotId)
      requires Valid()
      modifies this, table, db
      ensures Valid() && Snapshot() == Activate(old(Snapshot()), id)
    {
      hide Move, HandOff;
      Proceed(id, ACTIVE);
      pc := ActiveAudit(id);
    }

    method HealthDone(id: SlotId, i: Inputs)
      requires Valid()
      modifies this, table, db
      ensures Valid() && Snapshot() == FromHealthWait(old(Snapshot()), id, i)
    {
      hide Unwind, Move, HandOff;
      match i.healthy
      case Yes =>
        ActivateSlot(id);
      case No =>
        Proceed(id, LOADING_FAIL);
        pc := FailAudit(id);
      case Raises =>
        Finally(Raised(id));
    }

    /** The completion is in: resolve it, open the grace window. */
    method Completed(id: SlotId, i: Inputs)
      requires Valid()
      modifies this, table, db, grace
      ensures Valid() && Snapshot() == FromServe(old(Snapshot()), id, i)
    {
      hide Unwind, Move, HandOff, Settle;
      if !i.answered {
        Finally(Raised(id));
      } else if id in table.at {
        grace.Start(table.at[id].threadId, table.at[id].modelTag, now);
        Resolve(id, Answered);
        Proceed(id, GRACE);
        pc := GraceAudit(id);
      }
    }

    // ---- the grace loop ----

    /** The top of the grace loop: promote a follow-up, sleep, or leave. */
    method GraceRound(id: SlotId, deadline: int)
      requires Valid()
      modifies this, table, queue, db
      ensures Valid() && Snapshot() == FromGraceTop(old(Snapshot()), c, id, deadline)
    {
      hide LeaveGrace, PromoteMatch, FirstMatch;
      if id !in table.at {
        return;
      }
      if now < deadline && !stop {
        var found := Promote(id, deadline);
        if !found {
          pc := GraceSleep(id, deadline, now + c.pollTick);
        }
      } else {
        LeaveGraceLoop(id);
      }
    }

    /** `pop_matched_thread` and, on a match, the move to ACTIVE_MATCH. */
    method Promote(id: SlotId, deadline: int) returns (found: bool)
      requires Valid() && id in table.at
      modifies this, table, queue, db
      ensures Valid()
      ensures var s, slot := old(Snapshot()), old(table.at)[id];
              var at := FirstMatch(s.book.q.staging, s.book.slots, slot.threadId, slot.modelTag);
              && found == at.Some?
              && Snapshot() == if at.Some? then PromoteMatch(s, id, at.value, deadline) else s
    {
      hide FirstMatch, Move, HandOff, Without, Scheduler.SetPid, Legal;
      var pid := PidOf(Ledger(), id);
      var popped := queue.PopMatchedThread(table.at[id].threadId, table.at[id].modelTag);
      found := popped.Some?;
      if found {
        AssignPid(popped.value, pid);
        TakeUp(id, popped.value, deadline);
      }
    }

    /** The follow-up becomes the slot being served, unless its state has drifted. */
    method TakeUp(id: SlotId, m: SlotId, deadline: int)
      requires Valid()
      modifies this, table, db
      ensures Valid()
      ensures var s := old(Snapshot()).(activeSlot := Some(m));
              Snapshot() == if m in s.book.slots && Legal(s.book.slots[m].state, ACTIVE_MATCH)
                            then s.(book := Advance(s.book, m, ACTIVE_MATCH), pc := MatchAudit(id, m, deadline))
                            else s.(pc := Drift(id, m))
    {
      hide Move, HandOff, Legal;
      activeSlot := Some(m);
      if m in table.at && Legal(table.at[m].state, ACTIVE_MATCH) {
        Proceed(m, ACTIVE_MATCH);
        pc := MatchAudit(id, m, deadline);
      } else {
        pc := Drift(id, m);
      }
    }

    /** Out of the loop: park the process in the idle holder or tear it down. */
    method LeaveGraceLoop(id: SlotId)
      requires Valid()
      modifies this, table, db
      ensures Valid() && Snapshot() == LeaveGrace(old(Snapshot()), c, id)
    {
      hide BeginTeardown, Move, IdleWindow, TagOf;
      var window := IdleWindow(latestKeepAliveS, c);
      var modelTag := TagOf(Ledger(), id);
      Transition(id, POPPED);
      if window > 0 && activeHandle.Some? {
        Park(modelTag, now + window);
        latestKeepAliveS := None;
        pc := IdleAudit(id);
      } else {
        latestKeepAliveS := None;
        Teardown(id, GraceOver);
      }
    }

    /** The active process is parked in the idle holder. */
    method Park(modelTag: string, expires: int)
      requires Valid()
      modifies this`idleHandle, this`idleModelTag, this`idleExpiresAt
      ensures Valid()
      ensures var s := old(Snapshot());
              Snapshot() == s.(side := s.side.(idle := s.side.active, idleTag := modelTag,
                  idleExpires := Some(expires)))
    {
      idleHandle, idleModelTag, idleExpiresAt := activeHandle, modelTag, Some(expires);
    }

    method MatchAudited(id: SlotId, m: SlotId, deadline: int)
      requires Valid()
      modifies this, table
      ensures Valid() && Snapshot() == FromMatchAudit(old(Snapshot()), id, m, deadline)
    {
      hide Move;
      latestKeepAliveS := KeepAliveOf(Ledger(), m);
      Transition(m, ACTIVE);
      pc := MatchServe(id, m, deadline);
    }

    method MatchServed(id: SlotId, m: SlotId, deadline: int, i: Inputs)
      requires Valid()
      modifies this, table, db
      ensures Valid() && Snapshot() == FromMatchServe(old(Snapshot()), id, m, deadline, i)
    {
      hide Move, HandOff, Settle;
      Resolve(m, if i.answered then Answered else Failed("active_match"));
      Proceed(m, GRACE);
      pc := MatchGrace(id, m, deadline, i.answered);
    }

    /** Extend the deadline if the cap allows it; POPPED either way. */
    method MatchGraced(id: SlotId, m: SlotId, deadline: int, ok: bool)
      requires Valid()
      modifies this, table, db, grace
      ensures Valid() && Snapshot() == FromMatchGrace(old(Snapshot()), c, id, m, deadline, ok)
    {
      hide PopMatch;
      if ok && grace.extensionCount < c.maxExtensions && m in table.at {
        var restarted := grace.RestartForFollowup(now);
        table.at := table.at[m := table.at[m].(extensions := grace.extensionCount)];
        exts := exts + 1;
        pc := MatchExtended(id, m, now + c.graceSeconds);
      } else {
        PopFollowup(id, m, deadline, ok);
      }
    }

    method PopFollowup(id: SlotId, m: SlotId, deadline: int, ok: bool)
      requires Valid()
      modifies this, table, db
      ensures Valid() && Snapshot() == PopMatch(old(Snapshot()), id, m, deadline, ok)
    {
      hide Move, HandOff;
      Proceed(m, POPPED);
      pc := MatchPopped(id, m, deadline, ok);
    }

    method FollowupDone(id: SlotId, m: SlotId, deadline: int, ok: bool)
      requires Valid()
      modifies this, db
      ensures Valid() && Snapshot() == FromMatchPopped(old(Snapshot()), id, m, deadline, ok)
    {
      MarkEnded(m, if ok then "active_match_completed" else "active_match_failed");
      activeSlot := Some(id);
      pc := GraceTop(id, deadline);
    }

    // ---- the other tasks ----

    /** `submit` up to its audit. A slot that is refused goes with the exception. */
    method SubmitRequest(id: SlotId, threadId: string, modelTag: string, keepAlive: Option<int>, wait: bool)
      requires Valid() && id !in table.at
      modifies this, table, queue, db, grace
      ensures Valid() && Snapshot() == Submit(old(Snapshot()), c, id, threadId, modelTag, keepAlive, wait)
    {
      hide LetIn, Restarted, GraceMatches, Admit, AfterEnqueue;
      if stop {
        return;
      }
      var matched := grace.MatchesWindow(threadId, modelTag, now);
      if matched {
        SubmitAtHead(id, NewSlot(modelTag, threadId, keepAlive, wait));
      } else {
        SubmitInTurn(id, NewSlot(modelTag, threadId, keepAlive, wait));
      }
    }

    /** The grace shortcut: to the head of the queue, and the window restarts if it may. */
    method SubmitAtHead(id: SlotId, slot: Slot)
      requires Valid() && id !in table.at
      modifies this, table, queue, db, grace
      ensures Valid()
      ensures var s, q := old(Snapshot()), old(queue.State());
              var b := LetIn(s.book, id, Moved(slot, STAGED), q.(staging := [id] + q.staging), now);
              Snapshot() == if q.closed then s else s.(book := b, grace := Restarted(s.grace, c.maxExtensions, now))
    {
      hide Upsert, Restarted;
      table.at := table.at[id := slot];
      var accepted := queue.EnqueueHead(id);
      if accepted {
        assert table.at == old(table.at)[id := Moved(slot, STAGED)];
        var restarted := grace.RestartForFollowup(now);
        Audit(id);
      } else {
        table.at := table.at - {id};
        assert table.at == old(table.at);
      }
    }

    method SubmitInTurn(id: SlotId, slot: Slot)
      requires Valid() && id !in table.at
      modifies this, table, queue, db
      ensures Valid()
      ensures var s, a := old(Snapshot()), Admit(old(queue.State()), c.stagingMax, c.acceptanceMax);
              var q := AfterEnqueue(s.book.q, id, a);
              Snapshot() == match a
                            case RefusedClosed | RefusedFull => s
                            case Staged => s.(book := LetIn(s.book, id, Moved(slot, STAGED), q, now))
                            case Buffered => s.(book := LetIn(s.book, id, Moved(slot, ACCEPT_BUFFER), q, now))
    {
      hide Upsert, Admit, AfterEnqueue;
      table.at := table.at[id := slot];
      var a := queue.Enqueue(id);
      if a == Staged || a == Buffered {
        assert table.at == old(table.at)[id := Moved(slot, if a == Staged then STAGED else ACCEPT_BUFFER)];
        Audit(id);
      } else {
        assert queue.State() == old(queue.State()) by {
          NotEntered(old(queue.State()), id, a);
        }
        table.at := table.at - {id};
        assert table.at == old(table.at);
      }
    }

    /** `shutdown` up to its wait: the stop flag, and the cancellation of the worker where it is suspended. */
    method CancelWorker()
      requires Valid()
      modifies this, table, db
      ensures Valid() && Snapshot() == Cancel(old(Snapshot()))
    {
      CancelIs(Snapshot());
      hide Cancel, Unwind, Settle, Move, HandOff, Hand, LeftBy;
      stop, shut := true, Asked;
      if pc.Drift? || pc.Exited? {
        return;
      }
      if pc.MatchServe? {
        CancelFollowup(pc.id, pc.m);
      } else if QuitsAtOnce(pc) {
        pc := Exited(Hand(pc));
      } else {
        Finally(Cancelled(Hand(pc)));
      }
    }

    /** A follow-up is cancelled while it is served. */
    method CancelFollowup(id: SlotId, m: SlotId)
      requires Valid()
      modifies this, table, db
      ensures Valid() && Snapshot() == CancelledFollowup(old(Snapshot()), id, m)
    {
      hide Settle, Move, HandOff;
      Resolve(m, Failed("shutdown during active_match"));
      if m in table.at && Legal(table.at[m].state, POPPED) {
        Transition(m, POPPED);
      }
      AuditAsync(m);
      pc := MatchCancel(id, m);
    }

    /** `shutdown` after the worker has ended. */
    method ShutdownCloses()
      requires Valid()
      modifies this, table, queue
      ensures Valid() && Snapshot() == Close(old(Snapshot()))
    {
      shut := Complete;
      DropIdle();
      var cleared := queue.Close();
      FailAll(cleared, Failed("manager shutdown"));
      dropped := dropped + set id | id in cleared;
    }

    /** The loop that fails what the queue still held. */
    method FailAll(ids: seq<SlotId>, verdict: Verdict)
      requires Valid()
      modifies table
      ensures Valid() && table.at == AllSettled(old(table.at), ids, verdict)
    {
      ghost var before := table.at;
      for i := 0 to |ids|
        invariant Valid() && table.at == AllSettled(before, ids[..i], verdict)
      {
        Resolve(ids[i], verdict);
        assert ids[..i + 1] == ids[..i] + [ids[i]];
      }
      assert ids[..|ids|] == ids;
    }

    /** One sweep of the background sweeper: rows older than the configured age, but at least a minute. The thread may
        write `between` the SELECT and the UPDATEs. */
    method RunSweep(minAgeS: int, between: bool) returns (n: nat, ghost e: Event)
      requires Valid()
      modifies db, this`writing, this`reopened
      ensures Valid() && e.Sweep? && Allowed(old(Snapshot()), e) && Snapshot() == Step(old(Snapshot()), c, e)
      ensures e.between == between && e.cutoff <= now - minAgeS
      ensures n == |e.ids| && db.finalized == old(db.finalized) + n
    {
      var minAge := if minAgeS > SWEEP_MIN_AGE_S then minAgeS else SWEEP_MIN_AGE_S;
      var ids := db.SelectStale(now - minAge);
      if between {
        RunAudit();
      }
      n := db.EndBatch(ids, now);
      e := Sweep(ids, now - minAge, between);
    }

    /** The first step of a detached teardown of the idle holder. */
    method RunIdleTeardown()
      requires Valid()
      modifies this
      ensures Valid() && Snapshot() == Step(old(Snapshot()), c, IdleTeardown)
    {
      if idleTasks > 0 {
        idleTasks := idleTasks - 1;
        DropIdle();
      }
    }

    /** What a client does to its slot. */
    method ObserveClient(e: Event)
      requires Valid() && (e.Disconnect? || e.GiveUp?)
      modifies table
      ensures Valid() && Snapshot() == Step(old(Snapshot()), c, e)
    {
      match e
      case Disconnect(id) =>
        if id in table.at {
          table.at := table.at[id := table.at[id].(disconnected := true)];
        }
      case GiveUp(id) =>
        Resolve(id, ClientGone);
    }

    /** What the host and the clock do. */
    method ObserveHost(e: Event)
      requires Valid() && (e.Dies? || e.Elapse?)
      modifies this`procs, this`now, this`waited
      ensures Valid() && Snapshot() == Step(old(Snapshot()), c, e)
    {
      match e
      case Dies(p) =>
        if p in procs {
          procs := procs[p := procs[p].(alive := false)];
        }
      case Elapse(d) =>
        now := now + d;
        if pc.GraceSleep? {
          waited := waited + d;
        }
    }

    /** Any event that the environment may send next. Whatever it is, afterwards every process is held, dead or being
        terminated, at most one slot is being served, and every slot's states are a legal path. */
    method Do(e: Event)
      requires Valid() && Sound() && Allowed(Snapshot(), e)
      modifies this, table, queue, db, grace
      ensures Valid() && Sound() && Snapshot() == Step(old(Snapshot()), c, e)
      ensures Custody() && ServesOne() && LegalHistories()
    {
      StepKeeps(Snapshot(), c, e);
      hide Inv, Step, Allowed;
      Perform(e);
      SoundObject();
    }

    /** The event itself; a sweep comes with the rows its SELECT returned. */
    method Perform(e: Event)
      requires Valid() && Allowed(Snapshot(), e)
      modifies this, table, queue, db, grace
      ensures Valid() && Snapshot() == Step(old(Snapshot()), c, e)
    {
      hide Resume, Submit, Cancel, Close, EndedAll, TakeIdle;
      match e
      case Worker(i) =>
        RunWorker(i);
      case Request(id, threadId, modelTag, keepAlive, wait) =>
        SubmitRequest(id, threadId, modelTag, keepAlive, wait);
      case IdleTeardown =>
        RunIdleTeardown();
      case RowWritten =>
        RunAudit();
      case Sweep(ids, cutoff, between) =>
        if between {
          RunAudit();
        }
        var n := db.EndEach(ids, "background_sweeper_evicted", now);
      case ShutdownAsked =>
        CancelWorker();
      case ShutdownCloses =>
        ShutdownCloses();
      case Disconnect(_) | GiveUp(_) =>
        ObserveClient(e);
      case Dies(_) | Elapse(_) =>
        ObserveHost(e);
    }

    // ---- the worker ----

    /** The worker runs from where it is suspended to its next suspension. */
    method RunWorker(i: Inputs)
      requires Valid()
      modifies this, table, queue, db, grace
      ensures Valid() && Snapshot() == Resume(old(Snapshot()), c, i)
    {
      hide Resume;
      if InGrace(pc) {
        RunGraceLoop(i);
      } else if InMatch(pc) {
        RunFollowup(i);
      } else if IsActive(pc) {
        RunActive(i);
      } else if BeforeGrace(pc) {
        RunLoad(i);
      } else {
        RunWayOut(i);
      }
    }

    static predicate InGrace(pc: Pc) {
      pc.GraceAudit? || pc.GraceTop? || pc.GraceSleep?
    }

    static predicate InMatch(pc: Pc) {
      pc.MatchAudit? || pc.MatchServe? || pc.MatchGrace? || pc.MatchExtended? || pc.MatchPopped?
    }

    static predicate IsActive(pc: Pc) {
      pc.InheritAudit? || pc.HealthWait? || pc.ActiveAudit? || pc.Serve?
    }

    static predicate IsLast(pc: Pc) {
      !InGrace(pc) && !InMatch(pc) && !IsActive(pc) && !BeforeGrace(pc)
    }

    static predicate BeforeGrace(pc: Pc) {
      || pc.Head? || pc.HeadSleep? || pc.RiskLoading? || pc.RiskFail? || pc.LoadAudit? || pc.SwapTerm?
      || pc.SwapVerify? || pc.RefuseAudit?
    }

    method RunGraceLoop(i: Inputs)
      requires Valid() && InGrace(pc)
      modifies this, table, queue, db, grace
      ensures Valid() && Snapshot() == Resume(old(Snapshot()), c, i)
    {
      hide FromGraceTop, FromMatchAudit, FromMatchServe, FromMatchGrace, PopMatch, FromMatchPopped;
      match pc
      case GraceAudit(id) =>
        exts, waited := 0, 0;
        pc := GraceTop(id, now + c.graceSeconds);
      case GraceTop(id, deadline) =>
        GraceRound(id, deadline);
      case GraceSleep(id, deadline, _) =>
        pc := GraceTop(id, deadline);
    }

    method RunFollowup(i: Inputs)
      requires Valid() && InMatch(pc)
      modifies this, table, queue, db, grace
      ensures Valid() && Snapshot() == Resume(old(Snapshot()), c, i)
    {
      hide FromMatchAudit, FromMatchServe, FromMatchGrace, PopMatch, FromMatchPopped;
      match pc
      case MatchAudit(id, m, deadline) =>
        MatchAudited(id, m, deadline);
      case MatchServe(id, m, deadline) =>
        MatchServed(id, m, deadline, i);
      case MatchGrace(id, m, deadline, ok) =>
        MatchGraced(id, m, deadline, ok);
      case MatchExtended(id, m, deadline) =>
        PopFollowup(id, m, deadline, true);
      case MatchPopped(id, m, deadline, ok) =>
        FollowupDone(id, m, deadline, ok);
    }

    method RunLoad(i: Inputs)
      requires Valid() && BeforeGrace(pc)
      modifies this, table, queue, db, grace
      ensures Valid() && Snapshot() == Resume(old(Snapshot()), c, i)
    {
      hide FromHead, FromLoadAudit, FromSwapTerm, GateAndSpawn, Refuse, Move, HandOff;
      match pc
      case Head =>
        WorkerHead(i);
      case HeadSleep =>
        pc := Head;
      case RiskLoading(id) =>
        Proceed(id, LOADING_FAIL);
        pc := RiskFail(id);
      case RiskFail(id) =>
        RefuseSlot(id, "manifest_not_found");
      case LoadAudit(id) =>
        AfterLoading(id, i);
      case SwapTerm(id, p) =>
        SwapDone(id, p, i);
      case SwapVerify(id) =>
        Spawn(id, i);
      case RefuseAudit(id) =>
        RefuseSlot(id, "safety_gate_refused");
    }

    method RunActive(i: Inputs)
      requires Valid() && IsActive(pc)
      modifies this, table, queue, db, grace
      ensures Valid() && Snapshot() == Resume(old(Snapshot()), c, i)
    {
      hide FromHealthWait, Activate, FromServe, GateAndSpawn, Refuse, Move, HandOff;
      match pc
      case InheritAudit(id) =>
        ActivateSlot(id);
      case HealthWait(id) =>
        HealthDone(id, i);
      case ActiveAudit(id) =>
        latestKeepAliveS := KeepAliveOf(Ledger(), id);
        pc := Serve(id);
      case Serve(id) =>
        Completed(id, i);
    }

    method RunWayOut(i: Inputs)
      requires Valid() && IsLast(pc)
      modifies this, table, queue, db, grace
      ensures Valid() && Snapshot() == Resume(old(Snapshot()), c, i)
    {
      if pc.TdTerm? || pc.TdVerify? || pc.TdAudit? {
        RunTeardown(i);
      } else {
        RunLastAudit(i);
      }
    }

    method RunTeardown(i: Inputs)
      requires Valid() && (pc.TdTerm? || pc.TdVerify? || pc.TdAudit?)
      modifies this, table, queue, db, grace
      ensures Valid() && Snapshot() == Resume(old(Snapshot()), c, i)
    {
      hide FromTdTerm, AfterTeardown, Mark, TdReason;
      match pc
      case TdTerm(id, why) =>
        TeardownTermDone(id, why, i);
      case TdVerify(id, why) =>
        TeardownVerified(id, why);
      case TdAudit(id, why) =>
        TeardownAudited(id, why);
    }

    method RunLastAudit(i: Inputs)
      requires Valid() && IsLast(pc)
      requires !pc.TdTerm? && !pc.TdVerify? && !pc.TdAudit?
      modifies this, table, queue, db, grace
      ensures Valid() && Snapshot() == Resume(old(Snapshot()), c, i)
    {
      hide Unwind, BeginTeardown, FromFinTerm, FromFcTerm, Move, Mark, IdleTick;
      match pc
      case FinTerm(how) =>
        FinallyRest(how, i);
      case FcTerm(id) =>
        ForceColdRest(id, i);
      case EvictAudit =>
        workerEvictions := workerEvictions + 1;
        Tick();
        pc := Head;
      case FailAudit(id) =>
        Transition(id, POPPED);
        Teardown(id, LoadFail);
      case MatchCancel(id, m) =>
        MarkEnded(m, "active_match_cancelled");
        Finally(Cancelled({id, m}));
      case IdleAudit(id) =>
        MarkEnded(id, "grace-expired-held-idle");
        Finally(Returned);
      case ColdIdleAudit(id) =>
        Finally(Returned);
      case FcAudit =>
        pc := Head;
      case Drift(_, _) =>
      case Exited(_) =>
    }
  }

  /** A new manager, driven by any run's events, goes through that run's states, so every theorem about runs is one
      about this object; custody, single serving and legal histories hold of its fields at every point. */
  method Drive(c: Config, events: seq<Event>) returns (m: TurbohaulManager)
    requires RunOf(c, events)
    ensures fresh(m.Parts()) && m.c == c && m.Valid()
    ensures m.Snapshot() == StateAt(c, events, |events|)
    ensures m.Custody() && m.ServesOne() && m.LegalHistories()
  {
    InitOk();
    assert ConfigOk(c);
    hide RunOf, Allowed, Step, Inv, ConfigOk;
    m := new TurbohaulManager(c);
    m.SoundObject();
    for k := 0 to |events|
      invariant fresh(m.Parts()) && m.c == c && m.Valid() && m.Sound()
      invariant m.Snapshot() == StateAt(c, events, k)
      invariant m.Custody() && m.ServesOne() && m.LegalHistories()
    {
      ReachedOk(c, events, k);
      m.Do(events[k]);
    }
  }

  /** The suspension points at which a cancellation ends the worker with no finally block to run. */
  predicate QuitsAtOnce(pc: Pc) {
    || pc.Head? || pc.HeadSleep? || pc.EvictAudit? || pc.FcAudit? || pc.FcTerm? || pc.FinTerm?
    || ((pc.TdTerm? || pc.TdVerify? || pc.TdAudit?) && pc.why == Uncaught)
  }

  /** What the handler of the cancelled completion writes. */
  function CancelledFollowup(s: Sched, id: SlotId, m: SlotId): Sched {
    var b := Settle(s.book, m, Failed("shutdown during active_match"));
    var b' := if m in b.slots && Legal(b.slots[m].state, POPPED) then Move(b, m, POPPED) else b;
    s.(book := HandOff(b', m), pc := MatchCancel(id, m))
  }

  /** A cancellation, by the kind of suspension point. */
  lemma CancelIs(s0: Sched)
    ensures var s := s0.(stop := true, shut := Asked);
            Cancel(s0) == if s.pc.Drift? || s.pc.Exited? then s
                          else if s.pc.MatchServe? then CancelledFollowup(s, s.pc.id, s.pc.m)
                          else if QuitsAtOnce(s.pc) then s.(pc := Exited(Hand(s.pc)))
                          else Unwind(s, Cancelled(Hand(s.pc)))
  {
    hide Unwind, Settle, Move, HandOff;
  }

  lemma NotEntered(q: QueueState, id: SlotId, a: Admission)
    requires a == RefusedClosed || a == RefusedFull
    ensures AfterEnqueue(q, id, a) == q
  {
  }
}
