/** How long an anchor can keep its process waiting for follow-ups. */
module SchedulerGrace {
  import opened Wrappers
  import opened Fsm
  import opened Slots
  import opened Queue
  import opened StateDb
  import opened Timers
  import opened Scheduler
  import opened SchedulerInvariant
  import opened SchedulerFrames
  import opened SchedulerTheorems
  import opened SchedulerFutures

  /** The deadline of the grace loop. */
  function DeadlineOf(pc: Pc): int
    requires InLoop(pc)
  {
    match pc
    case GraceTop(_, d) => d
    case GraceSleep(_, d, _) => d
    case MatchAudit(_, _, d) => d
    case MatchServe(_, _, d) => d
    case MatchGrace(_, _, d, _) => d
    case MatchExtended(_, _, d) => d
    case MatchPopped(_, _, d, _) => d
  }

  /** The waiting time the deadline extensions so far allow. */
  function Allowance(s: Sched, c: Config): int {
    (1 + s.exts) * c.graceSeconds
  }

  predicate GraceOk(s: Sched, c: Config) {
    && s.exts <= c.maxExtensions && s.grace.extensions <= c.maxExtensions
    && 0 <= s.waited <= Allowance(s, c) + c.pollTick
    && (InLoop(s.pc) ==> s.exts <= s.grace.extensions)
    && (s.pc.GraceSleep? ==> s.now <= s.pc.wakeBy <= s.pc.deadline + c.pollTick
                             && s.waited + (s.pc.deadline - s.now) <= Allowance(s, c))
    && (s.pc.GraceTop? && s.now < s.pc.deadline ==> s.waited + (s.pc.deadline - s.now) <= Allowance(s, c))
    && (InLoop(s.pc) && !s.pc.GraceSleep? && !s.pc.GraceTop? ==>
          s.waited <= Allowance(s, c)
          && (s.now < DeadlineOf(s.pc) ==> s.waited + (DeadlineOf(s.pc) - s.now) <= Allowance(s, c)))
  }

  lemma OneMoreGrace(exts: nat, g: int)
    ensures (1 + (exts + 1)) * g == (1 + exts) * g + g
  {
  }

  /** Outside the loop only the clock and the timer's count matter. */
  lemma OutsideOk(s: Sched, s': Sched, c: Config)
    requires GraceOk(s, c) && !InLoop(s'.pc)
    requires s'.exts == s.exts && s'.waited == s.waited && s'.grace.extensions <= c.maxExtensions
    ensures GraceOk(s', c)
  {
  }

  lemma LoopGraceStep(s: Sched, c: Config, i: Inputs)
    requires GraceOk(s, c) && ConfigOk(c) && InLoop(s.pc) && !s.pc.GraceTop?
    ensures GraceOk(Resume(s, c, i), c)
  {
    OneMoreGrace(s.exts, c.graceSeconds);
    hide Advance, Mark, Settle, Move;
  }

  lemma GraceTopStep(s: Sched, c: Config)
    requires GraceOk(s, c) && ConfigOk(c) && s.pc.GraceTop?
    ensures GraceOk(FromGraceTop(s, c, s.pc.id, s.pc.deadline), c)
  {
    EveryWayOut();
    hide Advance, Move, BeginTeardown, SlotsKept, OutsideKept, FirstMatch;
  }

  /** A step from outside the loop enters it, if at all, with a fresh allowance. */
  lemma OuterGraceStep(s: Sched, c: Config, i: Inputs)
    requires GraceOk(s, c) && ConfigOk(c) && !InLoop(s.pc) && !s.pc.GraceAudit?
    ensures var s' := Resume(s, c, i);
            !InLoop(s'.pc) && s'.exts == s.exts && s'.waited == s.waited && s'.grace.extensions <= c.maxExtensions
  {
    if s.pc.Head? {
      HeadStaysOut(s, c, i);
    } else if EndsSlot(s.pc) {
      EndStaysOut(s, c, i);
    } else {
      LoadStaysOut(s, c, i);
    }
  }

  /** Outside the grace loop, with its counts and the timer as they were. */
  predicate OutOfLoop(s: Sched, s': Sched) {
    !InLoop(s'.pc) && !s'.pc.GraceAudit? && s'.exts == s.exts && s'.waited == s.waited && s'.grace == s.grace
  }

  lemma WaysOutOfLoop()
    ensures forall s: Sched, how :: OutOfLoop(s, Unwind(s, how))
    ensures forall s: Sched, how :: OutOfLoop(s, Leave(s, how))
    ensures forall s: Sched, id :: OutOfLoop(s, ForceCold(s, id))
    ensures forall s: Sched, id, why :: OutOfLoop(s, AfterTeardown(s, id, why))
    ensures forall s: Sched, id, why :: OutOfLoop(s, BeginTeardown(s, id, why))
  {
    EveryWayOut();
    hide Unwind, Leave, ForceCold, AfterTeardown, BeginTeardown, SlotsKept, OutsideKept, OnlyEnds, SameTags;
  }

  lemma HeadStaysOut(s: Sched, c: Config, i: Inputs)
    requires s.pc.Head?
    ensures OutOfLoop(s, FromHead(s, c, i))
  {
    WaysOutOfLoop();
    hide Unwind, Advance, Settle, PopBook, Popped;
  }

  lemma EndStaysOut(s: Sched, c: Config, i: Inputs)
    requires EndsSlot(s.pc)
    ensures OutOfLoop(s, Resume(s, c, i))
  {
    WaysOutOfLoop();
    hide Unwind, Leave, ForceCold, AfterTeardown, Mark, Freeze;
  }

  lemma LoadStaysOut(s: Sched, c: Config, i: Inputs)
    requires !s.pc.Head? && !InLoop(s.pc) && !EndsSlot(s.pc) && !s.pc.GraceAudit?
    ensures var s' := Resume(s, c, i);
            !InLoop(s'.pc) && (s'.pc.GraceAudit? ==> s.pc.Serve?) && s'.exts == s.exts && s'.waited == s.waited
            && (s'.grace == s.grace || s'.grace.extensions == 0)
  {
    WaysOutOfLoop();
    hide Unwind, BeginTeardown, Advance, SetPid, Move, Mark, Settle, HandOff;
  }

  lemma ResumeGraceStep(s: Sched, c: Config, i: Inputs)
    requires GraceOk(s, c) && ConfigOk(c)
    ensures GraceOk(Resume(s, c, i), c)
  {
    if s.pc.GraceTop? {
      GraceTopStep(s, c);
    } else if InLoop(s.pc) {
      LoopGraceStep(s, c, i);
    } else if !s.pc.GraceAudit? {
      OuterGraceStep(s, c, i);
      OutsideOk(s, Resume(s, c, i), c);
    }
    hide FromGraceTop, FromHead;
  }

  lemma GraceStep(s: Sched, c: Config, e: Event)
    requires GraceOk(s, c) && ConfigOk(c) && Allowed(s, e)
    ensures GraceOk(Step(s, c, e), c)
  {
    if e.Worker? {
      ResumeGraceStep(s, c, e.i);
    } else if e.ShutdownAsked? {
      CancelStaysOut(s);
      OutsideOk(s, Cancel(s), c);
    } else if e.Request? {
      SubmitSide(s, c, e.id, e.threadId, e.modelTag, e.keepAlive, e.wait);
      SubmitGrace(s, c, e.id, e.threadId, e.modelTag, e.keepAlive, e.wait);
    }
    hide Resume, Cancel, Submit;
  }

  lemma CancelStaysOut(s: Sched)
    requires !s.pc.GraceTop?
    ensures !InLoop(Cancel(s).pc) && !Cancel(s).pc.GraceAudit? && Cancel(s).exts == s.exts
              && Cancel(s).waited == s.waited
    ensures Cancel(s).grace == s.grace
  {
    EveryWayOut();
    hide Unwind, SlotsKept, OutsideKept;
  }

  lemma SubmitGrace(s: Sched, c: Config, id: SlotId, threadId: string, modelTag: string, keepAlive: Option<int>,
      wait: bool)
    ensures var g := Submit(s, c, id, threadId, modelTag, keepAlive, wait).grace;
            s.grace.extensions <= g.extensions && (s.grace.extensions <= c.maxExtensions ==>
                g.extensions <= c.maxExtensions)
  {
  }

  lemma {:induction false} GraceReached(c: Config, events: seq<Event>, k: nat)
    requires RunOf(c, events) && k <= |events|
    ensures GraceOk(StateAt(c, events, k), c)
    decreases k
  {
    hide Allowed;
    if k > 0 {
      GraceReached(c, events, k - 1);
      ReachedOk(c, events, k - 1);
      GraceStep(StateAt(c, events, k - 1), c, events[k - 1]);
      hide GraceOk;
    }
  }

  /** An anchor's deadline is extended at most `maxExtensions` times, extensions spent by `submit`
      included, so the grace loop sleeps at most (1 + maxExtensions) grace periods and one poll tick. */
  lemma GraceIsBounded(c: Config, events: seq<Event>, k: nat)
    requires RunOf(c, events) && k <= |events|
    ensures var s := StateAt(c, events, k);
            && s.waited <= (1 + c.maxExtensions) * c.graceSeconds + c.pollTick
            && (InLoop(s.pc) ==> s.exts <= s.grace.extensions <= c.maxExtensions)
  {
    GraceReached(c, events, k);
    var s := StateAt(c, events, k);
    assert (1 + s.exts) * c.graceSeconds <= (1 + c.maxExtensions) * c.graceSeconds;
  }

  // ---- whose window it is ----

  /** From the completion to the end of the grace loop. */
  predicate InWindow(pc: Pc) {
    pc.GraceAudit? || InLoop(pc)
  }

  /** The open window carries the anchor's thread and model. */
  predicate WindowOk(s: Sched) {
    InWindow(s.pc) && s.pc.id in s.book.slots ==>
      && s.grace.startedAt.Some?
      && s.grace.threadId == s.book.slots[s.pc.id].threadId && s.grace.modelTag == s.book.slots[s.pc.id].modelTag
  }

  /** The timer keeps running for the same thread and model. */
  predicate SameLabels(g: GraceState, g': GraceState) {
    (g.startedAt.Some? ==> g'.startedAt.Some?) && g'.threadId == g.threadId && g'.modelTag == g.modelTag
  }

  lemma WindowStays(s: Sched, s': Sched)
    requires WindowOk(s) && InWindow(s.pc) && SameLabels(s.grace, s'.grace)
    requires InWindow(s'.pc) ==> s'.pc.id == s.pc.id
    requires InWindow(s'.pc) ==> KeptAt(s.book, s'.book, s.pc.id)
    ensures WindowOk(s')
  {
  }

  lemma LoopLabels(s: Sched, c: Config, i: Inputs)
    requires InLoop(s.pc) || s.pc.GraceAudit?
    ensures var s' := Resume(s, c, i);
            SameLabels(s.grace, s'.grace) && (InWindow(s'.pc) ==> s'.pc.id == s.pc.id)
  {
    EveryWayOut();
    hide Advance, Mark, Settle, Move, BeginTeardown, FirstMatch, SlotsKept, OutsideKept;
  }

  lemma ServeWindow(s: Sched, i: Inputs)
    requires s.pc.Serve?
    ensures WindowOk(FromServe(s, s.pc.id, i))
  {
    EveryWayOut();
    if i.answered && s.pc.id in s.book.slots {
      AnsweredLabels(s.book, s.pc.id, s.now);
    }
    hide Unwind, SlotsKept, OutsideKept, Advance, Settle;
  }

  lemma AnsweredLabels(b: Book, id: SlotId, now: int)
    requires id in b.slots
    ensures var b' := Advance(Settle(b, id, Answered), id, GRACE);
            id in b'.slots && b'.slots[id].threadId == b.slots[id].threadId
                && b'.slots[id].modelTag == b.slots[id].modelTag
  {
  }

  lemma WorkerWindow(s: Sched, c: Config, i: Inputs)
    requires WindowOk(s) && Inv(s) && Allowed(s, Worker(i))
    ensures WindowOk(Resume(s, c, i))
  {
    if InWindow(s.pc) {
      LoopLabels(s, c, i);
      StepKept(s, c, Worker(i), s.pc.id);
      hide Inv, Allowed, Resume, InLoop;
      WindowStays(s, Resume(s, c, i));
    } else if s.pc.Serve? {
      ServeWindow(s, i);
    } else if s.pc.Head? {
      HeadStaysOut(s, c, i);
    } else if EndsSlot(s.pc) {
      EndStaysOut(s, c, i);
    } else {
      LoadStaysOut(s, c, i);
    }
    hide Inv, Allowed, FromHead, FromServe;
  }

  lemma WindowStep(s: Sched, c: Config, e: Event)
    requires WindowOk(s) && Inv(s) && Allowed(s, e)
    ensures WindowOk(Step(s, c, e))
  {
    if e.Worker? {
      WorkerWindow(s, c, e.i);
    } else if e.ShutdownAsked? {
      CancelStaysOut(s);
    } else if InWindow(s.pc) {
      OtherLabels(s, c, e);
      AnchorKept(s, c, e);
      hide Inv, Allowed, Step, InLoop;
      WindowStays(s, Step(s, c, e));
    } else {
      OtherLabels(s, c, e);
    }
    hide Resume, Cancel, Submit, Close, Inv, Allowed, InLoop;
  }

  lemma AnchorKept(s: Sched, c: Config, e: Event)
    requires Inv(s) && Allowed(s, e) && InWindow(s.pc)
    ensures KeptAt(s.book, Step(s, c, e).book, s.pc.id)
  {
    assert s.pc.id in s.book.slots by {
      HandFacts(s.book, Hand(s.pc), s.pc.id);
      hide PlaceOk, Distinct, SideOk;
    }
    StepKept(s, c, e, s.pc.id);
    hide Inv, Step;
  }

  lemma OtherLabels(s: Sched, c: Config, e: Event)
    requires !e.Worker? && !e.ShutdownAsked?
    ensures var s' := Step(s, c, e); s'.pc == s.pc && SameLabels(s.grace, s'.grace)
  {
    hide LetIn, AllSettled, TakeIdle, EndedAll, Settle;
  }

  lemma {:induction false} WindowReached(c: Config, events: seq<Event>, k: nat)
    requires RunOf(c, events) && k <= |events|
    ensures WindowOk(StateAt(c, events, k))
    decreases k
  {
    hide Inv, Allowed, Step;
    if k > 0 {
      WindowReached(c, events, k - 1);
      ReachedOk(c, events, k - 1);
      WindowStep(StateAt(c, events, k - 1), c, events[k - 1]);
      hide WindowOk;
    }
  }

  /** A request is put before the queue only for the thread and model of the completion whose window is open:
      while the worker is in a grace loop, those of the anchor it would promote the request to. */
  lemma HeadInsertIsForAnchor(c: Config, events: seq<Event>, k: nat, threadId: string, modelTag: string)
    requires RunOf(c, events) && k <= |events|
    requires var s := StateAt(c, events, k);
             InWindow(s.pc) && GraceMatches(s.grace, c.graceSeconds, s.now, threadId, modelTag)
    ensures var s := StateAt(c, events, k);
            && s.pc.id in s.book.slots
            && s.book.slots[s.pc.id].threadId == threadId && s.book.slots[s.pc.id].modelTag == modelTag
  {
    WindowReached(c, events, k);
    ReachedOk(c, events, k);
    var s := StateAt(c, events, k);
    HandFacts(s.book, Hand(s.pc), s.pc.id);
    hide PlaceOk, Distinct, SideOk;
  }
}
