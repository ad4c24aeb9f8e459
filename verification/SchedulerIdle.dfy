/** The idle holder: how long a parked process is kept, and that it is never forgotten. */
module SchedulerIdle {
  import opened Wrappers
  import opened Slots
  import opened Queue
  import opened Timers
  import opened Scheduler
  import opened SchedulerInvariant
  import opened SchedulerFrames
  import opened SchedulerTheorems

  function LongestWindow(c: Config): int {
    if c.idleSeconds > KEEP_ALIVE_MAX_S then c.idleSeconds else KEEP_ALIVE_MAX_S
  }

  /** What a keep-alive intent may ask for: nothing for the configured window, a negative number for the
      longest, and never more than the longest. */
  lemma WindowIsClamped(keepAlive: Option<int>, c: Config)
    requires ConfigOk(c)
    ensures 0 <= IdleWindow(keepAlive, c) <= LongestWindow(c)
    ensures keepAlive.Some? ==> (IdleWindow(keepAlive, c) == 0 <==> keepAlive == Some(0))
    ensures keepAlive.Some? && 0 <= keepAlive.value <= KEEP_ALIVE_MAX_S ==> IdleWindow(keepAlive, c) == keepAlive.value
    ensures keepAlive.Some? && keepAlive.value < 0 ==> IdleWindow(keepAlive, c) == KEEP_ALIVE_MAX_S
  {
  }

  /** A parked process expires within the longest window, or its teardown task has been started. */
  predicate IdleOk(s: Sched, c: Config) {
    && (s.side.idleExpires.Some? ==> s.side.idle.Some? && s.side.idleExpires.value <= s.now + LongestWindow(c))
    && (s.side.idle.Some? && s.side.idleExpires.None? ==> s.tasks > 0)
  }

  /** A step that leaves the idle holder and the clock alone. */
  predicate IdleFrame(s: Sched, s': Sched) {
    s'.side.idle == s.side.idle && s'.side.idleExpires == s.side.idleExpires && s'.tasks == s.tasks && s'.now == s.now
  }

  /** Any way out of a slot is such a step. */
  lemma WaysOutFrame()
    ensures forall s, how :: IdleFrame(s, Unwind(s, how)) && IdleFrame(s, Leave(s, how))
    ensures forall s, id :: IdleFrame(s, ForceCold(s, id))
    ensures forall s, id, why :: IdleFrame(s, AfterTeardown(s, id, why)) && IdleFrame(s, BeginTeardown(s, id, why))
  {
    EveryWayOut();
    hide Unwind, Leave, ForceCold, AfterTeardown, BeginTeardown, SlotsKept, OutsideKept;
  }

  lemma HeadIdle(s: Sched, c: Config, i: Inputs)
    requires IdleOk(s, c) && s.pc.Head?
    ensures IdleOk(FromHead(s, c, i), c)
  {
    WaysOutFrame();
    hide Unwind, PopBook, Popped, Advance, Settle;
  }

  lemma LoopIdle(s: Sched, c: Config, i: Inputs)
    requires IdleOk(s, c) && ConfigOk(c) && InLoop(s.pc)
    ensures IdleOk(Resume(s, c, i), c)
  {
    WaysOutFrame();
    WindowIsClamped(s.latest, c);
    hide BeginTeardown, Advance, Move, Mark, Settle, FirstMatch, IdleWindow;
  }

  lemma EndIdle(s: Sched, c: Config, i: Inputs)
    requires IdleOk(s, c) && EndsSlot(s.pc)
    ensures IdleOk(Resume(s, c, i), c)
  {
    WaysOutFrame();
    hide Unwind, Leave, ForceCold, AfterTeardown, Mark, Freeze;
  }

  lemma LoadIdle(s: Sched, c: Config, i: Inputs)
    requires IdleOk(s, c) && !s.pc.Head? && !InLoop(s.pc) && !EndsSlot(s.pc)
    ensures IdleOk(Resume(s, c, i), c)
  {
    WaysOutFrame();
    hide Unwind, BeginTeardown, Advance, HandOff, SetPid, Settle, Mark, Move;
  }

  lemma CancelIdle(s: Sched, c: Config)
    requires IdleOk(s, c)
    ensures IdleOk(Cancel(s), c)
  {
    WaysOutFrame();
    hide Unwind, Settle, HandOff, Move;
  }

  lemma StepIdle(s: Sched, c: Config, e: Event)
    requires IdleOk(s, c) && ConfigOk(c)
    ensures IdleOk(Step(s, c, e), c)
  {
    match e
    case Worker(i) =>
      if s.pc.Head? {
        HeadIdle(s, c, i);
      } else if InLoop(s.pc) {
        LoopIdle(s, c, i);
      } else if EndsSlot(s.pc) {
        EndIdle(s, c, i);
      } else {
        LoadIdle(s, c, i);
      }
      hide FromHead;
    case ShutdownAsked => CancelIdle(s, c);
    case Request(id, threadId, modelTag, keepAlive, wait) => SubmitSide(s, c, id, threadId, modelTag, keepAlive, wait);
    case _ =>
    hide Resume, Cancel, Submit;
  }

  lemma {:induction false} IdleReached(c: Config, events: seq<Event>, k: nat)
    requires RunOf(c, events) && k <= |events|
    ensures IdleOk(StateAt(c, events, k), c)
    decreases k
  {
    hide Allowed, Inv;
    if k > 0 {
      IdleReached(c, events, k - 1);
      ReachedOk(c, events, k - 1);
      StepIdle(StateAt(c, events, k - 1), c, events[k - 1]);
      hide Step, IdleOk;
    }
  }

  /** A parked process is never forgotten: it has an expiry no later than the longest window from now, or a
      task that will take it down has been started. Once it has expired, the next idle round of the worker
      starts that task. */
  lemma IdleIsAttended(c: Config, events: seq<Event>, k: nat)
    requires RunOf(c, events) && k <= |events|
    ensures var s := StateAt(c, events, k);
            s.side.idle.Some? ==>
              match s.side.idleExpires
              case None => s.tasks > 0
              case Some(t) => t <= s.now + LongestWindow(c) && (s.now >= t ==> IdleTick(s).tasks == s.tasks + 1)
  {
    IdleReached(c, events, k);
  }
}
