/** What holds at every suspension point of every run of the scheduler. */
module SchedulerTheorems {
  import opened Wrappers
  import opened Fsm
  import opened Slots
  import opened Queue
  import opened StateDb
  import opened Scheduler
  import opened SchedulerInvariant
  import opened SchedulerQueue
  import opened SchedulerSteps
  import opened SchedulerFrames

  /** The state after the first `k` events of a run from the start. */
  function StateAt(c: Config, events: seq<Event>, k: nat): Sched
    requires k <= |events|
  {
    States(Init(), c, events)[k]
  }

  ghost predicate RunOf(c: Config, events: seq<Event>) {
    ConfigOk(c) && IsRun(Init(), c, events)
  }

  lemma InitOk()
    ensures Inv(Init())
  {
    EmptyIsDistinct();
    assert Line(Init().book.q) == [];
    forall id ensures PlaceOk(Init().book, {}, id) {
    }
  }

  lemma {:induction false} RunKeeps(s: Sched, c: Config, events: seq<Event>, k: nat)
    requires Inv(s) && ConfigOk(c) && IsRun(s, c, events) && k <= |events|
    ensures Inv(States(s, c, events)[k])
    ensures k < |events| ==> Allowed(States(s, c, events)[k], events[k])
    ensures k < |events| ==> States(s, c, events)[k + 1] == Step(States(s, c, events)[k], c, events[k])
    decreases events
  {
    hide Inv, Allowed, Step;
    if events != [] {
      StepKeeps(s, c, events[0]);
      if k > 0 {
        RunKeeps(Step(s, c, events[0]), c, events[1..], k - 1);
      }
    }
  }

  lemma ReachedOk(c: Config, events: seq<Event>, k: nat)
    requires RunOf(c, events) && k <= |events|
    ensures Inv(StateAt(c, events, k))
    ensures k < |events| ==> Allowed(StateAt(c, events, k), events[k])
    ensures k < |events| ==> StateAt(c, events, k + 1) == Step(StateAt(c, events, k), c, events[k])
  {
    InitOk();
    RunKeeps(Init(), c, events, k);
  }

  // ---- sidecar custody ----

  /** Alive, and no SIGTERM call has started for it. */
  predicate Untouched(d: Sidecars, p: Pid) {
    p in d.procs && d.procs[p].alive && !d.procs[p].terminating
  }

  /** Every process ever spawned is dead, being terminated, or in a holder; and at most one is alive
      without a SIGTERM call having started for it. */
  lemma SidecarCustody(c: Config, events: seq<Event>, k: nat, p: Pid, q: Pid)
    requires RunOf(c, events) && k <= |events|
    ensures var d := StateAt(c, events, k).side;
            && (p in d.procs ==>
                  || !d.procs[p].alive || d.procs[p].terminating || d.active == Some(p) || d.idle == Some(p))
            && (Untouched(d, p) && Untouched(d, q) ==> p == q)
  {
    ReachedOk(c, events, k);
    hide PlaceOk, Distinct, PcOk;
  }

  /** A process is spawned only with the idle holder empty, and with the active holder empty unless a
      SIGTERM call has raised, when it may keep the process of that call. */
  lemma SpawnsFindHoldersEmpty(c: Config, events: seq<Event>, k: nat)
    requires RunOf(c, events) && k < |events|
    requires StateAt(c, events, k + 1).side.procs.Keys != StateAt(c, events, k).side.procs.Keys
    ensures var d := StateAt(c, events, k).side;
            && d.idle.None?
            && (d.active.Some? ==> d.active.value in d.raised && Terminating(d, d.active.value))
  {
    ReachedOk(c, events, k);
    SpawnPoint(StateAt(c, events, k), c, events[k]);
    hide PlaceOk, Distinct;
  }

  /** Only two steps of the worker spawn, and the one that finds an idle handle does not. */
  lemma SpawnPoint(s: Sched, c: Config, e: Event)
    requires Step(s, c, e).side.procs.Keys != s.side.procs.Keys
    ensures s.pc.SwapVerify? || (s.pc.LoadAudit? && s.side.idle.None?)
  {
    if e.Worker? {
      ResumeFrame(s, c, e.i);
    } else if e.ShutdownAsked? {
      CancelFrame(s);
    }
    hide Resume, Cancel, Submit, Close;
    assert e == ShutdownCloses ==> Close(s).side == TakeIdle(s.side) by {
      CloseSide(s);
    }
    if e.Request? {
      SubmitSide(s, c, e.id, e.threadId, e.modelTag, e.keepAlive, e.wait);
    }
  }

  lemma CloseSide(s: Sched)
    ensures Close(s).side == TakeIdle(s.side)
  {
  }

  lemma SubmitSide(s: Sched, c: Config, id: SlotId, threadId: string, modelTag: string, keepAlive: Option<int>,
      wait: bool)
    ensures var s' := Submit(s, c, id, threadId, modelTag, keepAlive, wait);
            s' == s.(book := s'.book, grace := s'.grace) && s'.book.dropped == s.book.dropped && (s.stop ==> s' == s)
  {
  }

  // ---- serving ----

  /** At most one slot is being answered, and it is in the worker's hand. */
  lemma AtMostOneServing(c: Config, events: seq<Event>, k: nat, x: SlotId, y: SlotId)
    requires RunOf(c, events) && k <= |events|
    requires var slots := StateAt(c, events, k).book.slots;
             x in slots && y in slots && Serving(slots[x].state) && Serving(slots[y].state)
    ensures x == y && x in Hand(StateAt(c, events, k).pc)
  {
    ReachedOk(c, events, k);
    ServingIsOne(StateAt(c, events, k), x, y);
  }

  lemma ServingIsOne(s: Sched, x: SlotId, y: SlotId)
    requires Inv(s)
    requires x in s.book.slots && y in s.book.slots
    requires Serving(s.book.slots[x].state) && Serving(s.book.slots[y].state)
    ensures x == y && x in Hand(s.pc)
  {
    ServingInHand(s, x);
    ServingInHand(s, y);
    hide PlaceOk, Distinct;
    if !s.pc.FinTerm? && !s.pc.Exited? {
      HandServesOne(s);
    }
  }

  lemma ServingInHand(s: Sched, x: SlotId)
    requires Inv(s) && x in s.book.slots && Serving(s.book.slots[x].state)
    ensures x in Hand(s.pc)
  {
    assert PlaceOk(s.book, Hand(s.pc), x);
    hide PcOk, Distinct;
  }

  /** A slot being answered runs on the active process, which was spawned for its own model; if it is a
      matched follow-up, its anchor is in GRACE with the same thread and model. */
  lemma ServedOnOwnModel(c: Config, events: seq<Event>, k: nat)
    requires RunOf(c, events) && k <= |events|
    ensures var s := StateAt(c, events, k);
            (s.pc.ActiveAudit? || s.pc.Serve? ==> Owns(s, s.pc.id, ACTIVE))
            && (s.pc.MatchAudit? || s.pc.MatchServe? ==>
                  && Owns(s, s.pc.id, GRACE) && s.pc.m in s.book.slots
                  && s.book.slots[s.pc.m].state == (if s.pc.MatchServe? then ACTIVE else ACTIVE_MATCH)
                  && s.book.slots[s.pc.m].pid == s.side.active
                  && s.side.procs[s.side.active.value].tag == s.book.slots[s.pc.m].modelTag
                  && s.book.slots[s.pc.m].threadId == s.book.slots[s.pc.id].threadId
                  && s.book.slots[s.pc.m].modelTag == s.book.slots[s.pc.id].modelTag)
  {
    ReachedOk(c, events, k);
    hide PlaceOk, Distinct, SideOk;
  }

  // ---- histories ----

  /** Every slot's states form a path of legal transitions from RECEIVED, so `_force_cold` never writes
      COLD directly; `transition` never raises, and the state-drift branch of the grace loop is never
      entered. */
  lemma HistoriesAreLegal(c: Config, events: seq<Event>, k: nat, id: SlotId)
    requires RunOf(c, events) && k <= |events|
    ensures var s := StateAt(c, events, k);
            (id in s.book.slots ==> LegalHistory(s.book.slots[id])) && !s.book.badMove && !s.pc.Drift?
  {
    ReachedOk(c, events, k);
    var s := StateAt(c, events, k);
    assert PlaceOk(s.book, Hand(s.pc), id);
    hide LegalHistory, Distinct, SideOk;
  }

  // ---- shutdown ----

  /** What shutdown leaves behind for good. */
  predicate ShutOk(s: Sched) {
    && (s.shut != NotAsked ==> s.stop)
    && (s.book.dropped != {} || s.shut == Complete ==>
          s.pc.Exited? && s.shut == Complete && s.side.idle.None? && Line(s.book.q) == [])
  }

  lemma ShutStep(s: Sched, c: Config, e: Event)
    requires Inv(s) && ShutOk(s) && Allowed(s, e)
    ensures ShutOk(Step(s, c, e))
  {
    hide PlaceOk, Distinct, SideOk, PcOk, CountOk;
    match e
    case Worker(i) => ResumeFrame(s, c, i);
    case ShutdownAsked => CancelFrame(s);
    case Request(id, threadId, modelTag, keepAlive, wait) => SubmitSide(s, c, id, threadId, modelTag, keepAlive, wait);
    case _ =>
  }

  lemma {:induction false} ShutReached(c: Config, events: seq<Event>, k: nat)
    requires RunOf(c, events) && k <= |events|
    ensures ShutOk(StateAt(c, events, k))
    decreases k
  {
    hide ShutOk;
    if k == 0 {
      InitShut();
    } else {
      ShutReached(c, events, k - 1);
      ReachedOk(c, events, k - 1);
      ShutStep(StateAt(c, events, k - 1), c, events[k - 1]);
    }
  }

  lemma InitShut()
    ensures ShutOk(Init())
  {
  }

  // ---- settlement ----

  /** At every head of `worker_loop`, a slot that is no longer queued has no pending future and, unless it
      was evicted, a COLD row with an end and a reason. An evicted slot is still STAGED; the evicted are
      counted once each. */
  lemma SettledAtHead(c: Config, events: seq<Event>, k: nat, id: SlotId)
    requires RunOf(c, events) && k <= |events| && StateAt(c, events, k).pc.Head?
    ensures var s := StateAt(c, events, k);
            && s.evictions == |s.book.gone| && Distinct(s.book.gone)
            && (id in s.book.slots && !Queued(s.book.q, id) ==>
                  && s.book.slots[id].future != Pending
                  && if id in s.book.gone then s.book.slots[id].state == STAGED && s.book.slots[id].evicted
                     else RowEnded(s.book, id))
  {
    ReachedOk(c, events, k);
    ShutReached(c, events, k);
    var s := StateAt(c, events, k);
    assert PlaceOk(s.book, Hand(s.pc), id);
    hide Distinct, SideOk;
  }

  /** The worker is on its way out with no more than `hand`. */
  predicate CancelledOk(s: Sched, hand: set<SlotId>) {
    && s.shut != NotAsked && Hand(s.pc) <= hand
    && (s.pc.Exited? || s.pc.MatchCancel? || (s.pc.FinTerm? && s.pc.how.Cancelled?))
  }

  lemma CancelLeavesHand(s: Sched)
    requires !s.pc.GraceTop? && !s.pc.Drift?
    ensures CancelledOk(Cancel(s), Hand(s.pc))
  {
    hide Settle, Move, HandOff, Alive;
  }

  lemma CancelledStep(s: Sched, c: Config, e: Event, hand: set<SlotId>)
    requires CancelledOk(s, hand) && Allowed(s, e)
    ensures CancelledOk(Step(s, c, e), hand)
  {
    if e.Request? {
      SubmitSide(s, c, e.id, e.threadId, e.modelTag, e.keepAlive, e.wait);
    }
    hide Settle, Mark, Submit, EndedAll, TakeIdle, AllSettled, Alive;
  }

  /** From the cancellation on, the worker has in hand at most what it had then. */
  lemma {:induction false} CancelledReached(c: Config, events: seq<Event>, k0: nat, k: nat)
    requires RunOf(c, events) && k0 < k <= |events| && events[k0] == ShutdownAsked
    ensures CancelledOk(StateAt(c, events, k), Hand(StateAt(c, events, k0).pc))
    decreases k
  {
    ReachedOk(c, events, k - 1);
    var s := StateAt(c, events, k - 1);
    if k == k0 + 1 {
      assert !s.pc.Drift? by {
        hide PlaceOk, Distinct, SideOk;
      }
      CancelLeavesHand(s);
    } else {
      CancelledReached(c, events, k0, k - 1);
      hide CancelledOk;
      CancelledStep(s, c, events[k - 1], Hand(StateAt(c, events, k0).pc));
    }
    hide CancelledOk, Hand, Inv, Cancel;
  }

  /** After a shutdown every slot is settled but those the worker had in hand when it was cancelled; so is in
      particular every slot queued then. And every process ever spawned is dead or has been sent SIGTERM. */
  lemma SettledAfterShutdown(c: Config, events: seq<Event>, k0: nat, k: nat, id: SlotId, p: Pid)
    requires RunOf(c, events) && k0 < k <= |events| && events[k0] == ShutdownAsked
    requires StateAt(c, events, k).shut == Complete
    ensures var asked, s := StateAt(c, events, k0), StateAt(c, events, k);
            && s.pc.Exited? && s.pc.left <= Hand(asked.pc)
            && (id in s.book.slots && id !in Hand(asked.pc) ==> s.book.slots[id].future != Pending)
            && (Queued(asked.book.q, id) && id in s.book.slots ==> s.book.slots[id].future != Pending)
            && (p in s.side.procs ==> !s.side.procs[p].alive || s.side.procs[p].terminating)
  {
    ReachedOk(c, events, k0);
    ReachedOk(c, events, k);
    ShutReached(c, events, k);
    CancelledReached(c, events, k0, k);
    var s := StateAt(c, events, k);
    NotInHand(StateAt(c, events, k0), id);
    assert PlaceOk(s.book, Hand(s.pc), id);
    assert Queued(s.book.q, id) ==> id in Line(s.book.q);
    hide Distinct, Hand;
  }

  lemma NotInHand(s: Sched, id: SlotId)
    requires Inv(s)
    ensures Queued(s.book.q, id) ==> id !in Hand(s.pc)
  {
    assert PlaceOk(s.book, Hand(s.pc), id);
    hide Distinct, SideOk, PcOk;
  }

  /** A shutdown that is under way or complete was asked for. */
  lemma {:induction false} ShutdownWasAsked(c: Config, events: seq<Event>, k: nat) returns (k0: nat)
    requires RunOf(c, events) && k <= |events| && StateAt(c, events, k).shut != NotAsked
    ensures k0 < k && events[k0] == ShutdownAsked
    decreases k
  {
    if k == 0 {
      assert false;
    }
    ReachedOk(c, events, k - 1);
    var s, e := StateAt(c, events, k - 1), events[k - 1];
    if e == ShutdownAsked {
      return k - 1;
    }
    if e.Worker? {
      ResumeFrame(s, c, e.i);
    } else if e.Request? {
      SubmitSide(s, c, e.id, e.threadId, e.modelTag, e.keepAlive, e.wait);
    }
    hide Inv, Resume, Submit;
    k0 := ShutdownWasAsked(c, events, k - 1);
  }
}
