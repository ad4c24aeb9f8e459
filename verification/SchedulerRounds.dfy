/** The grace loop round by round: whom it promotes, when it sleeps, how long it goes on, and what it leaves behind. */
module SchedulerRounds {
  import opened Wrappers
  import opened Fsm
  import opened Slots
  import opened Queue
  import opened StateDb
  import opened Timers
  import opened Scheduler
  import opened SchedulerInvariant
  import opened SchedulerQueue
  import opened SchedulerFrames
  import opened SchedulerTheorems
  import opened SchedulerFutures
  import opened SchedulerRows
  import opened SchedulerLoad

  // ---- one round ----

  /** The loop goes on: its deadline has not come, and no stop was asked for. */
  predicate GoesOn(s: Sched) {
    s.pc.GraceTop? && s.now < s.pc.deadline && !s.stop
  }

  /** A slot of the same thread and model; no thread at all is no thread to follow. */
  predicate Follows(b: Book, id: SlotId, slot: Slot) {
    && id in b.slots && slot.threadId != ""
    && b.slots[id].threadId == slot.threadId && b.slots[id].modelTag == slot.modelTag
  }

  /** The staged slot at `at` is the first that follows `slot`. */
  predicate FirstOf(s: Sched, at: nat, slot: Slot) {
    && at < |s.book.q.staging| && Follows(s.book, s.book.q.staging[at], slot)
    && forall j :: 0 <= j < at ==> !Follows(s.book, s.book.q.staging[j], slot)
  }

  /** The follow-up at `at` is taken out of the queue onto the anchor's process, for good unless it was dropped. */
  predicate PromotedAt(s: Sched, s': Sched, id: SlotId, at: nat)
    requires s.pc.GraceTop? && at < |s.book.q.staging| && id in s.book.slots
  {
    var m := s.book.q.staging[at];
    && s'.pc == MatchAudit(id, m, s.pc.deadline) && At(s'.book, m, ACTIVE_MATCH)
    && s'.book.slots[m].pid == s.book.slots[id].pid && s'.side == s.side
    && s'.book.q == s.book.q.(staging := s.book.q.staging[..at] + s.book.q.staging[at + 1..])
  }

  /** The active process is parked under the anchor's model until the window runs out, or sent SIGTERM if the window is
      zero. */
  predicate LeftBehind(s: Sched, s': Sched, window: int)
    requires s.pc.GraceTop? && s.pc.id in s.book.slots && s.side.active.Some?
  {
    && s'.side.active == s.side.active && s'.side.procs.Keys == s.side.procs.Keys
    && if window > 0 then
         && s'.side.idle == s.side.active && s'.side.idleTag == s.book.slots[s.pc.id].modelTag
         && s'.side.idleExpires == Some(s.now + window) && s'.side.procs == s.side.procs
       else s'.side.idle.None? && Terminating(s'.side, s.side.active.value)
  }

  /** One round at the head of the grace loop. */
  ghost predicate Round(s: Sched, s': Sched, c: Config)
    requires s.pc.GraceTop?
  {
    && s.pc.id in s.book.slots && s.side.active.Some?
    && var id, slot := s.pc.id, s.book.slots[s.pc.id];
       if GoesOn(s) then
         if exists at :: FirstOf(s, at, slot) then exists at :: FirstOf(s, at, slot) && PromotedAt(s, s', id, at)
         else s' == s.(pc := GraceSleep(id, s.pc.deadline, s.now + c.pollTick))
       else At(s'.book, id, POPPED) && LeftBehind(s, s', IdleWindow(s.latest, c))
  }

  /** While the deadline has not come and no stop was asked for, the round promotes the first staged follow-up of the
      anchor's thread and model, or sleeps a tick if there is none; afterwards the anchor is POPPED, and its process is
      parked until now plus the window asked for, or sent SIGTERM if that is zero. */
  lemma RoundExactly(c: Config, events: seq<Event>, k: nat)
    requires RunOf(c, events) && k < |events| && events[k].Worker? && StateAt(c, events, k).pc.GraceTop?
    ensures Round(StateAt(c, events, k), StateAt(c, events, k + 1), c)
  {
    var s := StateAt(c, events, k);
    WorkerStep(c, events, k);
    OneRound(s, c);
    assert Resume(s, c, events[k].i) == FromGraceTop(s, c, s.pc.id, s.pc.deadline) by {
      hide FromGraceTop, Inv, RunOf, StateAt;
    }
    hide Inv, Resume, FromGraceTop, Round, StateAt;
  }

  lemma AtGraceTop(s: Sched)
    requires Inv(s) && s.pc.GraceTop?
    ensures At(s.book, s.pc.id, GRACE)
    ensures s.side.active.Some? && s.side.idle.None? && s.side.active.value in s.side.procs
  {
    hide BookOk, CountOk, WritingOk;
  }

  lemma OneRound(s: Sched, c: Config)
    requires Inv(s) && s.pc.GraceTop?
    ensures Round(s, FromGraceTop(s, c, s.pc.id, s.pc.deadline), c)
  {
    AtGraceTop(s);
    var id, slot := s.pc.id, s.book.slots[s.pc.id];
    var found := FirstMatch(s.book.q.staging, s.book.slots, slot.threadId, slot.modelTag);
    if GoesOn(s) {
      FoundIsFirst(s, slot);
      if found.Some? {
        PromotedRound(s, found.value);
      }
      hide Inv, FirstMatch, FirstOf, PromotedAt, PromoteMatch;
    } else {
      LeaveOutcome(s, c);
      hide Inv, LeaveGrace, FirstMatch;
    }
  }

  lemma FoundIsFirst(s: Sched, slot: Slot)
    ensures var found := FirstMatch(s.book.q.staging, s.book.slots, slot.threadId, slot.modelTag);
            && (found.Some? ==> FirstOf(s, found.value, slot))
            && (found.None? ==> forall at :: !FirstOf(s, at, slot))
  {
  }

  lemma PromotedRound(s: Sched, at: nat)
    requires Inv(s) && s.pc.GraceTop? && at < |s.book.q.staging| && s.pc.id in s.book.slots
    ensures PromotedAt(s, PromoteMatch(s, s.pc.id, at, s.pc.deadline), s.pc.id, at)
  {
    var m := s.book.q.staging[at];
    assert PlaceOk(s.book, Hand(s.pc), m);
    HandFacts(s.book, Hand(s.pc), s.pc.id);
    assert m != s.pc.id;
    hide Inv, PlaceOk, LegalHistory;
  }

  lemma LeaveOutcome(s: Sched, c: Config)
    requires s.pc.GraceTop? && At(s.book, s.pc.id, GRACE)
    requires s.side.active.Some? && s.side.idle.None? && s.side.active.value in s.side.procs
    ensures var s' := LeaveGrace(s, c, s.pc.id);
            At(s'.book, s.pc.id, POPPED) && LeftBehind(s, s', IdleWindow(s.latest, c))
  {
    hide IdleWindow;
  }

  // ---- the window asked for ----

  /** The slot whose completion the worker has last been at. */
  function LastServed(c: Config, events: seq<Event>, k: nat): Option<SlotId>
    requires k <= |events|
    decreases k
  {
    ServedNow(StateAt(c, events, k), if k == 0 then None else LastServed(c, events, k - 1))
  }

  function ServedNow(s: Sched, last: Option<SlotId>): Option<SlotId> {
    if s.pc.Serve? then Some(s.pc.id) else if s.pc.MatchServe? then Some(s.pc.m) else last
  }

  /** From the anchor's completion to the end of its grace loop. */
  predicate Answering(pc: Pc) {
    pc.Serve? || pc.GraceAudit? || InLoop(pc)
  }

  predicate KeepsIntent(s: Sched, last: Option<SlotId>) {
    Answering(s.pc) ==> last.Some? && last.value in s.book.slots && s.latest == s.book.slots[last.value].keepAlive
  }

  /** The intent that decides the window is that of the slot that was served last: the anchor's, or the last
      follow-up's. */
  lemma {:induction false} IntentIsLastServed(c: Config, events: seq<Event>, k: nat)
    requires RunOf(c, events) && k <= |events|
    ensures KeepsIntent(StateAt(c, events, k), LastServed(c, events, k))
    decreases k
  {
    hide Inv, Allowed, Step, KeepsIntent, Kept, ServedNow;
    if k > 0 {
      var last := LastServed(c, events, k - 1);
      IntentIsLastServed(c, events, k - 1);
      ReachedOk(c, events, k - 1);
      ReachedOk(c, events, k);
      assert ServedNow(StateAt(c, events, k - 1), last) == last by {
        ServedTwice(StateAt(c, events, k - 1), if k == 1 then None else LastServed(c, events, k - 2));
      }
      if last.Some? && last.value in StateAt(c, events, k - 1).book.slots {
        FuturesAreFinal(c, events, k - 1, k, last.value);
      }
      IntentAfter(StateAt(c, events, k - 1), c, events[k - 1], last);
    } else {
      NoIntent();
    }
  }

  lemma ServedTwice(s: Sched, last: Option<SlotId>)
    ensures ServedNow(s, ServedNow(s, last)) == ServedNow(s, last)
  {
  }

  lemma NoIntent()
    ensures KeepsIntent(Init(), ServedNow(Init(), None))
  {
  }

  lemma IntentAfter(s: Sched, c: Config, e: Event, last: Option<SlotId>)
    requires Allowed(s, e) && Inv(Step(s, c, e)) && KeepsIntent(s, last) && ServedNow(s, last) == last
    requires last.Some? && last.value in s.book.slots ==>
               last.value in Step(s, c, e).book.slots
               && Kept(s.book.slots[last.value], Step(s, c, e).book.slots[last.value])
    ensures KeepsIntent(Step(s, c, e), ServedNow(Step(s, c, e), last))
  {
    IntentStep(s, c, e);
    AnsweringKnown(Step(s, c, e));
    hide Inv, Allowed, Step, KeepsIntent, SameIntent, NewIntent, Kept;
    IntentNext(s, Step(s, c, e), last);
  }

  lemma IntentNext(s: Sched, s': Sched, last: Option<SlotId>)
    requires KeepsIntent(s, last) && (SameIntent(s, s') || NewIntent(s'))
    requires last.Some? && last.value in s.book.slots ==>
               last.value in s'.book.slots && Kept(s.book.slots[last.value], s'.book.slots[last.value])
    requires ServedNow(s, last) == last
    requires s'.pc.Serve? ==> s'.pc.id in s'.book.slots
    requires s'.pc.MatchServe? ==> s'.pc.m in s'.book.slots
    ensures KeepsIntent(s', ServedNow(s', last))
  {
    hide WasActive, LetInAs;
  }

  lemma AnsweringKnown(s: Sched)
    requires Inv(s)
    ensures s.pc.Serve? ==> s.pc.id in s.book.slots
    ensures s.pc.MatchServe? ==> s.pc.m in s.book.slots
  {
    hide BookOk, SideOk, CountOk, WritingOk;
  }

  /** The intent is as it was, and so is the completion the worker is at, if it is at one. */
  predicate SameIntent(s: Sched, s': Sched) {
    Answering(s'.pc) ==>
      Answering(s.pc) && s'.latest == s.latest && (s'.pc.Serve? || s'.pc.MatchServe? ==> s'.pc == s.pc)
  }

  /** It is that of the completion that starts. */
  predicate NewIntent(s': Sched) {
    (s'.pc.Serve? && s'.latest == KeepAliveOf(s'.book, s'.pc.id))
    || (s'.pc.MatchServe? && s'.latest == KeepAliveOf(s'.book, s'.pc.m))
  }

  lemma OutAnswersNone()
    ensures forall s: Sched, how :: SameIntent(s, Unwind(s, how))
    ensures forall s: Sched, how :: SameIntent(s, Leave(s, how))
    ensures forall s: Sched, id :: SameIntent(s, ForceCold(s, id))
    ensures forall s: Sched, id, why :: SameIntent(s, AfterTeardown(s, id, why))
    ensures forall s: Sched, id, why :: !Answering(BeginTeardown(s, id, why).pc)
    ensures forall s: Sched, how :: !Answering(Unwind(s, how).pc)
  {
    EveryWayOut();
    hide Unwind, Leave, ForceCold, AfterTeardown, BeginTeardown, SlotsKept, OutsideKept, OnlyEnds, SameTags;
  }

  lemma WorkerIntent(s: Sched, c: Config, i: Inputs)
    ensures SameIntent(s, Resume(s, c, i)) || NewIntent(Resume(s, c, i))
  {
    OutAnswersNone();
    if s.pc.Head? {
      HeadIntent(s, c, i);
    } else if s.pc.GraceTop? {
      GraceTopIntent(s, c);
    } else if InLoop(s.pc) {
      LoopIntent(s, c, i);
    } else if EndsSlot(s.pc) {
      EndIntent(s, c, i);
    } else {
      LoadIntent(s, c, i);
    }
    hide FromHead, FromGraceTop, SameIntent, NewIntent;
  }

  lemma HeadIntent(s: Sched, c: Config, i: Inputs)
    requires s.pc.Head?
    ensures SameIntent(s, FromHead(s, c, i))
  {
    OutAnswersNone();
    hide Unwind, Advance, Settle, PopBook, Popped;
  }

  lemma GraceTopIntent(s: Sched, c: Config)
    requires s.pc.GraceTop?
    ensures SameIntent(s, FromGraceTop(s, c, s.pc.id, s.pc.deadline))
  {
    OutAnswersNone();
    hide BeginTeardown, FirstMatch, Advance, SetPid, Move, IdleWindow;
  }

  lemma LoopIntent(s: Sched, c: Config, i: Inputs)
    requires InLoop(s.pc) && !s.pc.GraceTop?
    ensures SameIntent(s, Resume(s, c, i)) || NewIntent(Resume(s, c, i))
  {
    if s.pc.MatchAudit? {
      FollowupIntent(s);
    }
    hide Advance, Settle, Mark, FromMatchAudit;
  }

  lemma FollowupIntent(s: Sched)
    requires s.pc.MatchAudit?
    ensures NewIntent(FromMatchAudit(s, s.pc.id, s.pc.m, s.pc.deadline))
  {
  }

  lemma EndIntent(s: Sched, c: Config, i: Inputs)
    requires EndsSlot(s.pc)
    ensures SameIntent(s, Resume(s, c, i))
  {
    OutAnswersNone();
    hide Unwind, Leave, ForceCold, AfterTeardown, Mark, Freeze;
  }

  lemma LoadIntent(s: Sched, c: Config, i: Inputs)
    requires !s.pc.Head? && !InLoop(s.pc) && !EndsSlot(s.pc)
    ensures SameIntent(s, Resume(s, c, i)) || NewIntent(Resume(s, c, i))
  {
    OutAnswersNone();
    hide Unwind, BeginTeardown, Advance, HandOff, SetPid, Move, Mark, Settle;
  }

  lemma IntentStep(s: Sched, c: Config, e: Event)
    requires Allowed(s, e)
    ensures SameIntent(s, Step(s, c, e)) || NewIntent(Step(s, c, e))
  {
    if e.Worker? {
      WorkerIntent(s, c, e.i);
    } else if e.Request? {
      SubmitIntent(s, c, e);
    } else {
      TaskIntent(s, c, e);
      hide Step;
    }
    hide Resume, Submit, SameIntent, NewIntent;
  }

  lemma SubmitIntent(s: Sched, c: Config, e: Event)
    requires e.Request?
    ensures SameIntent(s, Submit(s, c, e.id, e.threadId, e.modelTag, e.keepAlive, e.wait))
  {
    SubmitSide(s, c, e.id, e.threadId, e.modelTag, e.keepAlive, e.wait);
    hide Submit;
  }

  lemma TaskIntent(s: Sched, c: Config, e: Event)
    requires Allowed(s, e) && !e.Worker? && !e.Request?
    ensures SameIntent(s, Step(s, c, e))
  {
    OutAnswersNone();
    hide Resume, Unwind, Submit, Settle, Move;
  }

  // ---- how long the loop goes on ----

  /** A stretch of the worker from one point of the loop to another: the deadline stays, and the timer with it, but
      after a follow-up that was answered while the cap allows one more extension. */
  predicate DeadlineStep(s: Sched, s': Sched, c: Config)
    requires InLoop(s.pc) && InLoop(s'.pc)
  {
    if s.pc.MatchGrace? && s.pc.ok && s.grace.extensions < c.maxExtensions then
      && s'.pc.deadline == s.now + c.graceSeconds
      && s'.grace == s.grace.(extensions := s.grace.extensions + 1, startedAt := Some(s.now))
    else s'.pc.deadline == s.pc.deadline && s'.grace == s.grace
  }

  lemma DeadlineExactly(c: Config, events: seq<Event>, k: nat)
    requires RunOf(c, events) && k < |events| && events[k].Worker?
    requires InLoop(StateAt(c, events, k).pc) && InLoop(StateAt(c, events, k + 1).pc)
    ensures DeadlineStep(StateAt(c, events, k), StateAt(c, events, k + 1), c)
  {
    var s := StateAt(c, events, k);
    WorkerStep(c, events, k);
    if s.pc.MatchGrace? {
      KnownInLoop(s);
    }
    DeadlineKept(s, c, events[k].i);
    hide Inv, Resume, DeadlineStep, StateAt;
  }

  lemma KnownInLoop(s: Sched)
    requires Inv(s) && s.pc.MatchGrace?
    ensures s.pc.m in s.book.slots
  {
    hide BookOk, SideOk, CountOk, WritingOk;
  }

  lemma DeadlineKept(s: Sched, c: Config, i: Inputs)
    requires InLoop(s.pc) && InLoop(Resume(s, c, i).pc) && (s.pc.MatchGrace? ==> s.pc.m in s.book.slots)
    ensures DeadlineStep(s, Resume(s, c, i), c)
  {
    OutAnswersNone();
    hide BeginTeardown, FirstMatch, Advance, SetPid, Move, Mark, Settle, IdleWindow;
  }

  /** The first deadline is a grace period after the completion's audit; the window starts with the completion, for its
      thread and model; and the follow-up's outcome is that of its completion. */
  lemma LoopStarts(c: Config, events: seq<Event>, k: nat)
    requires RunOf(c, events) && k < |events| && events[k].Worker?
    ensures var s, s', i := StateAt(c, events, k), StateAt(c, events, k + 1), events[k].i;
            && (s.pc.Serve? && i.answered ==>
                  && At(s'.book, s.pc.id, GRACE) && s'.pc == GraceAudit(s.pc.id)
                  && var slot := s'.book.slots[s.pc.id];
                     s'.grace == GraceState(Some(s.now), slot.threadId, slot.modelTag, 0))
            && (s.pc.GraceAudit? ==> s'.pc == GraceTop(s.pc.id, s.now + c.graceSeconds))
            && (s.pc.MatchServe? ==> s'.pc == MatchGrace(s.pc.id, s.pc.m, s.pc.deadline, i.answered))
  {
    var s := StateAt(c, events, k);
    WorkerStep(c, events, k);
    StartOutcome(s, c, events[k].i);
    hide Inv, Resume, StateAt;
  }

  lemma StartOutcome(s: Sched, c: Config, i: Inputs)
    requires Inv(s)
    ensures var s' := Resume(s, c, i);
            && (s.pc.Serve? && i.answered ==>
                  && At(s'.book, s.pc.id, GRACE) && s'.pc == GraceAudit(s.pc.id)
                  && var slot := s'.book.slots[s.pc.id];
                     s'.grace == GraceState(Some(s.now), slot.threadId, slot.modelTag, 0))
            && (s.pc.GraceAudit? ==> s'.pc == GraceTop(s.pc.id, s.now + c.graceSeconds))
            && (s.pc.MatchServe? ==> s'.pc == MatchGrace(s.pc.id, s.pc.m, s.pc.deadline, i.answered))
  {
    if s.pc.Serve? {
      assert At(s.book, s.pc.id, ACTIVE) by {
        hide BookOk, SideOk, CountOk, WritingOk;
      }
      hide Inv;
    } else {
      hide Inv, FromServe;
    }
  }
}
