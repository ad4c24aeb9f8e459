/** What comes in and what is taken up: where a request is put, and what the top of the worker's loop does with the head
    of the line. */
module SchedulerIntake {
  import opened Wrappers
  import opened Fsm
  import opened Slots
  import opened Queue
  import opened QueueRuns
  import opened StateDb
  import opened Timers
  import opened Scheduler
  import opened SchedulerInvariant
  import opened SchedulerQueue
  import opened SchedulerFrames
  import opened SchedulerTheorems
  import opened SchedulerRows
  import opened SchedulerLoad
  import opened SchedulerVerdicts

  // ---- requests ----

  /** The window of the last completion is open, and the request continues its thread on its model. */
  predicate Continues(s: Sched, c: Config, e: Event)
    requires e.Request?
  {
    && s.grace.startedAt.Some? && s.now < s.grace.startedAt.value + c.graceSeconds
    && s.grace.threadId == e.threadId && s.grace.modelTag == e.modelTag
  }

  /** A slot as a request makes it, in the state of its tier and with an open row of its own. */
  predicate NewIn(s: Sched, s': Sched, e: Event, state: SlotState)
    requires e.Request?
  {
    && e.id in s'.book.slots && e.id in s'.book.rows
    && var slot := s'.book.slots[e.id];
       && slot.state == state && slot.modelTag == e.modelTag && slot.threadId == e.threadId
       && slot.keepAlive == e.keepAlive && slot.pid.None? && slot.future == (if e.wait then Pending else NoFuture)
       && !slot.disconnected && !slot.evicted
       && s'.book.rows[e.id] == Row(state, None, s.now, None, None)
  }

  /** A request is refused when the manager stops, when the queue is closed, and when both tiers are full, and leaves
      nothing then. One that continues the open window goes before all others, whatever the caps, and restarts the
      window unless that has used its extensions. Any other goes to the end of staging if there is room, and else of
      the buffer. */
  predicate RequestStep(s: Sched, s': Sched, c: Config, e: Event)
    requires e.Request?
  {
    var q, q' := s.book.q, s'.book.q;
    if s.stop || q.closed then s' == s
    else if Continues(s, c, e) then
      && NewIn(s, s', e, STAGED) && q' == QueueState([e.id] + q.staging, q.buf, false)
      && (if s.grace.extensions < c.maxExtensions
          then s'.grace == s.grace.(extensions := s.grace.extensions + 1, startedAt := Some(s.now))
          else s'.grace == s.grace)
    else if |q.staging| < c.stagingMax then
      NewIn(s, s', e, STAGED) && q' == QueueState(q.staging + [e.id], q.buf, false) && s'.grace == s.grace
    else if |q.buf| < c.acceptanceMax then
      NewIn(s, s', e, ACCEPT_BUFFER) && q' == QueueState(q.staging, q.buf + [e.id], false) && s'.grace == s.grace
    else s' == s
  }

  lemma RequestsExactly(c: Config, events: seq<Event>, k: nat)
    requires RunOf(c, events) && k < |events| && events[k].Request?
    ensures RequestStep(StateAt(c, events, k), StateAt(c, events, k + 1), c, events[k])
  {
    var s, e := StateAt(c, events, k), events[k];
    ReachedOk(c, events, k);
    assert e.id !in s.book.rows by {
      assert PlaceOk(s.book, Hand(s.pc), e.id);
      hide SideOk, PcOk, CountOk, WritingOk, LegalHistory, StateAt;
    }
    RequestOutcome(s, c, e);
    assert Step(s, c, e) == Submit(s, c, e.id, e.threadId, e.modelTag, e.keepAlive, e.wait) by {
      hide Submit, Inv, StateAt, RunOf;
    }
    hide Inv, Step, Submit, RequestStep, StateAt;
  }

  lemma RequestOutcome(s: Sched, c: Config, e: Event)
    requires e.Request? && e.id !in s.book.slots && e.id !in s.book.rows
    ensures RequestStep(s, Submit(s, c, e.id, e.threadId, e.modelTag, e.keepAlive, e.wait), c, e)
  {
    hide NewIn, LetIn;
    var slot, q := NewSlot(e.modelTag, e.threadId, e.keepAlive, e.wait), s.book.q;
    LetInIs(s, e, slot, STAGED);
    LetInIs(s, e, slot, ACCEPT_BUFFER);
  }

  lemma LetInIs(s: Sched, e: Event, slot: Slot, state: SlotState)
    requires e.Request? && e.id !in s.book.slots && e.id !in s.book.rows
    requires slot == NewSlot(e.modelTag, e.threadId, e.keepAlive, e.wait)
    ensures forall q, grace ::
              var s' := s.(book := LetIn(s.book, e.id, Moved(slot, state), q, s.now), grace := grace);
              NewIn(s, s', e, state) && s'.book.q == q
    ensures forall q ::
              var s' := s.(book := LetIn(s.book, e.id, Moved(slot, state), q, s.now));
              NewIn(s, s', e, state) && s'.book.q == q
  {
  }

  // ---- the head of the line ----

  /** A load for a model without a manifest would cost the process that is parked for another. */
  predicate AtRisk(s: Sched, i: Inputs, x: SlotId)
    requires x in s.book.slots
  {
    && i.manifest == Missing && s.side.idle.Some? && s.side.idle.value in s.side.procs
    && s.side.procs[s.side.idle.value].tag != s.book.slots[x].modelTag
  }

  /** The top of the worker's loop: it sleeps if nothing waits; it evicts the head of the line if its client is gone,
      which is counted and fails the caller, and leaves the slot STAGED; else it loads it, but refuses one whose load
      would cost a parked process for nothing. An unreadable manifest is an uncaught exception. */
  predicate TopStep(s: Sched, s': Sched, i: Inputs) {
    var line := Line(s.book.q);
    if s.stop then s' == s.(pc := Exited({}))
    else if line == [] then s'.pc == HeadSleep && s'.book.gone == s.book.gone
    else
      var x := line[0];
      && x in s.book.slots && x in s'.book.slots && Line(s'.book.q) == line[1..]
      && if AtHeadGone(s, x) then
           && s'.pc == EvictAudit && s'.book.gone == s.book.gone + [x] && s'.book.slots[x].evicted
           && s'.book.slots[x].state == STAGED && s'.side == s.side
         else
           && s'.book.gone == s.book.gone
           && (i.manifest != Invalid ==>
                 && s'.book.slots[x].state == LOADING && s'.side == s.side && s'.latest.None?
                 && s'.activeSlot == Some(x)
                 && s'.pc == if AtRisk(s, i, x) then RiskLoading(x) else LoadAudit(x))
           && (i.manifest == Invalid ==> s'.pc.FinTerm? || Handling(s'.pc))
  }

  lemma TopExactly(c: Config, events: seq<Event>, k: nat)
    requires RunOf(c, events) && k < |events| && events[k].Worker? && StateAt(c, events, k).pc.Head?
    ensures TopStep(StateAt(c, events, k), StateAt(c, events, k + 1), events[k].i)
  {
    var s := StateAt(c, events, k);
    WorkerStep(c, events, k);
    TopOutcome(s, c, events[k].i);
    assert Resume(s, c, events[k].i) == FromHead(s, c, events[k].i) by {
      hide FromHead, Inv, RunOf, StateAt;
    }
    hide Inv, Resume, FromHead, TopStep, StateAt;
  }

  lemma TopOutcome(s: Sched, c: Config, i: Inputs)
    requires Inv(s) && ConfigOk(c) && s.pc.Head?
    ensures TopStep(s, FromHead(s, c, i), i)
  {
    var line := Line(s.book.q);
    hide TopStep, FromHead, Inv, Line;
    if s.stop || line == [] {
      QuietTop(s, c, i);
    } else if AtHeadGone(s, line[0]) {
      EvictTop(s, c, i, line[0]);
    } else {
      LoadTop(s, c, i, line[0]);
    }
  }

  lemma QuietTop(s: Sched, c: Config, i: Inputs)
    requires ConfigOk(c) && s.pc.Head? && (s.stop || Line(s.book.q) == [])
    ensures TopStep(s, FromHead(s, c, i), i)
  {
    PopTakesHeadOfLine(s.book.q, c.stagingMax);
    PopRows(s.book, c);
    hide PopBook, Popped, StartSlot, Line;
  }

  lemma EvictTop(s: Sched, c: Config, i: Inputs, x: SlotId)
    requires Inv(s) && ConfigOk(c) && s.pc.Head? && AtHeadGone(s, x)
    ensures TopStep(s, FromHead(s, c, i), i)
  {
    PopTakesHeadOfLine(s.book.q, c.stagingMax);
    HeadKnown(s, c, x);
    PopVerdict(s, c, x);
    PopRows(s.book, c);
    hide Inv, PopBook, Popped, StartSlot, Line, Handling, AtRisk;
  }

  lemma LoadTop(s: Sched, c: Config, i: Inputs, x: SlotId)
    requires Inv(s) && ConfigOk(c) && s.pc.Head?
    requires !s.stop && Line(s.book.q) != [] && Line(s.book.q)[0] == x && !AtHeadGone(s, x)
    ensures TopStep(s, FromHead(s, c, i), i)
  {
    PopTakesHeadOfLine(s.book.q, c.stagingMax);
    HeadKnown(s, c, x);
    PopVerdict(s, c, x);
    PopRows(s.book, c);
    var popped := s.(book := PopBook(s.book, c), activeSlot := Some(x), latest := None);
    TakenUpOutcome(popped, s.book.slots[x].modelTag, x, i);
    assert AtRisk(s, i, x) <==>
           i.manifest == Missing && s.side.idle.Some? && s.side.idleTag != s.book.slots[x].modelTag;
    hide Inv, PopBook, Popped, Handling, AtRisk;
    assert FromHead(s, c, i) == StartSlot(popped, x, i) by {
      hide StartSlot, Line;
    }
    hide FromHead, StartSlot, Line;
  }

  lemma HeadKnown(s: Sched, c: Config, x: SlotId)
    requires Inv(s) && ConfigOk(c) && s.pc.Head? && PoppedBy(s.book.q, c) == Some(x)
    ensures x in s.book.slots && At(PopBook(s.book, c), x, STAGED)
    ensures PopBook(s.book, c).slots[x].modelTag == s.book.slots[x].modelTag
    ensures s.side.idle.Some? ==>
              s.side.idle.value in s.side.procs && s.side.procs[s.side.idle.value].tag == s.side.idleTag
  {
    PopBookKeeps(s.book, c);
    PopKeys(s.book, c, x);
    PopSlotAt(s.book, c, x);
    hide PlaceOk, PcOk, CountOk, WritingOk, PopBook, Popped, Promoted;
  }

  lemma TakenUpOutcome(s: Sched, tag: string, x: SlotId, i: Inputs)
    requires At(s.book, x, STAGED) && s.book.slots[x].modelTag == tag
    ensures var s' := StartSlot(s, x, i);
            && x in s'.book.slots && s'.book.q == s.book.q && s'.book.gone == s.book.gone
            && (i.manifest != Invalid ==>
                  && s'.book.slots[x].state == LOADING && s'.side == s.side && s'.latest == s.latest
                  && s'.activeSlot == s.activeSlot
                  && s'.pc == if i.manifest == Missing && s.side.idle.Some? && s.side.idleTag != tag
                              then RiskLoading(x) else LoadAudit(x))
            && (i.manifest == Invalid ==> s'.pc.FinTerm? || Handling(s'.pc))
  {
    UnwindOut(s, Raised(x));
    if i.manifest == Invalid {
      RaisedEnds(s, x);
    }
    hide Unwind, OutsideKept, OnlyEnds, Kept;
  }

  lemma RaisedEnds(s: Sched, x: SlotId)
    ensures Unwind(s, Raised(x)).pc.FinTerm? || Handling(Unwind(s, Raised(x)).pc)
  {
    hide Freeze, Settle;
  }
}
