/** What becomes of a caller: exactly when he is answered, when he is gone, and why he is failed. */
module SchedulerVerdicts {
  import opened Wrappers
  import opened Fsm
  import opened Slots
  import opened Queue
  import opened QueueRuns
  import opened StateDb
  import opened Timers
  import opened Scheduler
  import opened SchedulerInvariant
  import opened SchedulerQueue
  import opened SchedulerFrames
  import opened SchedulerTheorems
  import opened SchedulerRows

  predicate IsPending(b: Book, x: SlotId) {
    x in b.slots && b.slots[x].future == Pending
  }

  predicate Has(b: Book, x: SlotId, v: Verdict) {
    x in b.slots && b.slots[x].future == Done(v)
  }

  /** The worker's handler of an uncaught exception has this slot. */
  predicate Handling(pc: Pc) {
    pc.FcAudit? || pc.FcTerm? || (pc.TdTerm? && pc.why == Uncaught)
  }

  /** The head of the line is `x`, and its client is gone. */
  predicate AtHeadGone(s: Sched, x: SlotId) {
    && !s.stop && Line(s.book.q) != [] && Line(s.book.q)[0] == x
    && x in s.book.slots && (s.book.slots[x].disconnected || s.book.slots[x].evicted)
  }

  /** Why the caller of `x`, who is waiting, is failed in this event, if he is, other than by the worker's handler of
      uncaught exceptions. */
  function Blame(s: Sched, c: Config, e: Event, x: SlotId): Option<string> {
    if e == ShutdownCloses then if Queued(s.book.q, x) then Some("manager shutdown") else None
    else if e == ShutdownAsked then
      if s.pc.MatchServe? && s.pc.m == x then Some("shutdown during active_match") else None
    else if !e.Worker? then None
    else
      match s.pc
      case Head => if AtHeadGone(s, x) then Some("evicted") else None
      case RiskFail(id) => if id == x then Some("manifest_not_found") else None
      case RefuseAudit(id) => if id == x then Some("safety_gate_refused") else None
      case TdAudit(id, LoadFail) => if id == x then Some("loading-fail-health-timeout") else None
      case MatchServe(_, m, _) => if m == x && !e.i.answered then Some("active_match") else None
      case _ => None
  }

  /** The completion that is answered in this event, if one is. */
  predicate Answers(s: Sched, e: Event, x: SlotId) {
    e.Worker? && e.i.answered && (s.pc == Serve(x) || (s.pc.MatchServe? && s.pc.m == x))
  }

  /** One event and one waiting caller: he is answered exactly by his completion, gone exactly when he gives up, failed
      for the reason there is, and by the handler of uncaught exceptions only besides. */
  ghost predicate VerdictStep(s: Sched, s': Sched, c: Config, e: Event, x: SlotId) {
    && x in s'.book.slots
    && (Has(s'.book, x, Answered) <==> Answers(s, e, x))
    && (Has(s'.book, x, ClientGone) <==> e == GiveUp(x))
    && (Blame(s, c, e, x).Some? ==> Has(s'.book, x, Failed(Blame(s, c, e, x).value)))
    && (forall why :: Has(s'.book, x, Failed(why)) ==>
          Blame(s, c, e, x) == Some(why) || (why == "worker" && e.Worker? && Handling(s'.pc)))
  }

  // ---- the futures that a write or a way out leaves ----

  /** The future of `x` stays as it is. */
  predicate SameFuture(b: Book, b': Book, x: SlotId) {
    x in b.slots ==> x in b'.slots && b'.slots[x].future == b.slots[x].future
  }

  /** Or it is failed by the handler. */
  predicate LeftFuture(s: Sched, s': Sched, x: SlotId) {
    x in s.book.slots ==>
      && x in s'.book.slots
      && (|| s'.book.slots[x].future == s.book.slots[x].future
          || (s.book.slots[x].future == Pending && s'.book.slots[x].future == Done(Failed("worker"))
              && Handling(s'.pc)))
  }

  lemma FutureWrites(x: SlotId)
    ensures forall b, id, to :: SameFuture(b, Move(b, id, to), x)
    ensures forall b, id, to :: SameFuture(b, Advance(b, id, to), x)
    ensures forall b, id :: SameFuture(b, HandOff(b, id), x)
    ensures forall b, id, pid :: SameFuture(b, SetPid(b, id, pid), x)
    ensures forall b, id, reason, now :: SameFuture(b, Mark(b, id, reason, now), x)
    ensures forall b, id, v :: id != x ==> SameFuture(b, Settle(b, id, v), x)
    ensures forall b, id, now :: SameFuture(b, Freeze(b, id, now), x)
    ensures forall b, b1, b2 {:trigger SameFuture(b, b1, x), SameFuture(b1, b2, x)} ::
              SameFuture(b, b1, x) && SameFuture(b1, b2, x) ==> SameFuture(b, b2, x)
    ensures forall b :: SameFuture(b, b, x)
  {
    forall b, id, now ensures SameFuture(b, Freeze(b, id, now), x) {
      if id in b.slots {
        WalkedFuture(b.slots[id], ColdWalk(b.slots[id].state, 4));
      }
      hide Walked, ColdWalk;
    }
    hide Freeze;
  }

  lemma {:induction false} WalkedFuture(s: Slot, states: seq<SlotState>)
    ensures Walked(s, states).future == s.future
    decreases states
  {
    if states != [] {
      WalkedFuture(Moved(s, states[0]), states[1..]);
    }
  }

  lemma FutureOut(x: SlotId)
    ensures forall s: Sched, id :: SameFuture(s.book, ForceCold(s, id).book, x)
    ensures forall s: Sched, how :: LeftFuture(s, Leave(s, how), x)
    ensures forall s: Sched, how :: LeftFuture(s, Unwind(s, how), x)
    ensures forall s: Sched, id, why :: why != LoadFail ==> LeftFuture(s, AfterTeardown(s, id, why), x)
    ensures forall s: Sched, id, why :: why != LoadFail ==> LeftFuture(s, BeginTeardown(s, id, why), x)
  {
    FutureWrites(x);
    forall s: Sched, id ensures SameFuture(s.book, ForceCold(s, id).book, x) {
      hide SameFuture, Freeze;
    }
    forall s: Sched, how ensures LeftFuture(s, Leave(s, how), x) && LeftFuture(s, Unwind(s, how), x) {
      LeaveFuture(s, how, x);
      LeaveFuture(s.(activeSlot := None, side := s.side.(active := None)), how, x);
      hide Leave;
    }
    hide Leave, Unwind, Freeze, SameFuture, Mark;
  }

  lemma LeaveFuture(s: Sched, how: Leaving, x: SlotId)
    ensures LeftFuture(s, Leave(s, how), x)
  {
    FutureWrites(x);
    hide Freeze;
  }

  // ---- the worker's stretches ----

  lemma RefuseVerdict(s: Sched, id: SlotId, reason: string, x: SlotId)
    requires IsPending(s.book, x)
    ensures var s' := Refuse(s, id, reason);
            if x == id then Has(s'.book, x, Failed(reason)) else LeftFuture(s, s', x)
  {
    FutureWrites(x);
    FutureOut(x);
    var b := Mark(Move(s.book, id, POPPED), id, reason, s.now);
    assert SameFuture(s.book, b, x);
    hide Unwind, Mark, Move;
  }

  lemma LoadVerdict(s: Sched, c: Config, i: Inputs, x: SlotId)
    requires Inv(s) && IsPending(s.book, x) && !s.pc.Head? && !InLoop(s.pc) && !EndsSlot(s.pc)
    ensures VerdictStep(s, Resume(s, c, i), c, Worker(i), x)
  {
    if s.pc.RiskFail? || s.pc.RefuseAudit? {
      RefusalVerdict(s, c, i, x);
    } else if s.pc.Serve? {
      ServeVerdict(s, i, x);
      ServedVerdict(s, c, i, x);
    } else {
      LoadLeaves(s, c, i, x);
      JustLeft(s, Resume(s, c, i), c, Worker(i), x);
    }
    hide Inv, Resume, VerdictStep;
  }

  /** No cause applies, and the caller is left waiting or failed by the handler. */
  lemma JustLeft(s: Sched, s': Sched, c: Config, e: Event, x: SlotId)
    requires IsPending(s.book, x) && LeftFuture(s, s', x) && e.Worker?
    requires Blame(s, c, e, x).None? && !Answers(s, e, x)
    ensures VerdictStep(s, s', c, e, x)
  {
    hide Blame, Answers;
  }

  lemma RefusalVerdict(s: Sched, c: Config, i: Inputs, x: SlotId)
    requires IsPending(s.book, x) && (s.pc.RiskFail? || s.pc.RefuseAudit?)
    ensures VerdictStep(s, Resume(s, c, i), c, Worker(i), x)
  {
    var id, reason := s.pc.id, if s.pc.RiskFail? then "manifest_not_found" else "safety_gate_refused";
    RefuseVerdict(s, id, reason, x);
    assert Resume(s, c, i) == Refuse(s, id, reason) by {
      hide Refuse;
    }
    hide Resume, Refuse;
    RefusedBlame(s, Resume(s, c, i), c, i, x);
  }

  lemma RefusedBlame(s: Sched, s': Sched, c: Config, i: Inputs, x: SlotId)
    requires IsPending(s.book, x) && (s.pc.RiskFail? || s.pc.RefuseAudit?)
    requires var reason := if s.pc.RiskFail? then "manifest_not_found" else "safety_gate_refused";
             if x == s.pc.id then Has(s'.book, x, Failed(reason)) else LeftFuture(s, s', x)
    ensures VerdictStep(s, s', c, Worker(i), x)
  {
    if x != s.pc.id {
      JustLeft(s, s', c, Worker(i), x);
    }
  }

  lemma ServedVerdict(s: Sched, c: Config, i: Inputs, x: SlotId)
    requires s.pc.Serve? && IsPending(s.book, x)
    requires var s' := FromServe(s, s.pc.id, i);
             if x == s.pc.id && i.answered then Has(s'.book, x, Answered) else LeftFuture(s, s', x)
    ensures VerdictStep(s, Resume(s, c, i), c, Worker(i), x)
  {
    hide FromServe;
  }

  lemma ServeVerdict(s: Sched, i: Inputs, x: SlotId)
    requires s.pc.Serve? && IsPending(s.book, x)
    ensures var s' := FromServe(s, s.pc.id, i);
            if x == s.pc.id && i.answered then Has(s'.book, x, Answered) else LeftFuture(s, s', x)
  {
    FutureWrites(x);
    FutureOut(x);
    hide Unwind, Advance;
  }

  lemma LoadLeaves(s: Sched, c: Config, i: Inputs, x: SlotId)
    requires Inv(s) && !s.pc.Head? && !InLoop(s.pc) && !EndsSlot(s.pc)
    requires !s.pc.RiskFail? && !s.pc.RefuseAudit? && !s.pc.Serve?
    ensures LeftFuture(s, Resume(s, c, i), x)
  {
    FutureWrites(x);
    FutureOut(x);
    if s.pc.FailAudit? {
      assert s.side.active.Some? by {
        hide BookOk, SideOk, CountOk, WritingOk;
      }
    } else if s.pc.LoadAudit? || s.pc.SwapVerify? {
      GateLeaves(s, s.pc.id, i, x);
    }
    hide Inv, Unwind, Advance, HandOff, SetPid, Move, GateAndSpawn;
  }

  lemma GateLeaves(s: Sched, id: SlotId, i: Inputs, x: SlotId)
    ensures LeftFuture(s, GateAndSpawn(s, id, i), x)
  {
    FutureWrites(x);
    FutureOut(x);
    hide Unwind, Advance, SetPid;
  }

  lemma LoopVerdict(s: Sched, c: Config, i: Inputs, x: SlotId)
    requires IsPending(s.book, x) && InLoop(s.pc) && !s.pc.GraceTop?
    ensures VerdictStep(s, Resume(s, c, i), c, Worker(i), x)
  {
    if s.pc.MatchServe? {
      FollowupVerdict(s, i, x);
      hide FromMatchServe;
    } else {
      LoopLeaves(s, c, i, x);
      hide Resume;
    }
  }

  lemma FollowupVerdict(s: Sched, i: Inputs, x: SlotId)
    requires s.pc.MatchServe? && IsPending(s.book, x)
    ensures var b := FromMatchServe(s, s.pc.id, s.pc.m, s.pc.deadline, i).book;
            if x == s.pc.m then Has(b, x, if i.answered then Answered else Failed("active_match"))
            else SameFuture(s.book, b, x)
  {
    FutureWrites(x);
    hide Advance;
  }

  lemma LoopLeaves(s: Sched, c: Config, i: Inputs, x: SlotId)
    requires InLoop(s.pc) && !s.pc.GraceTop? && !s.pc.MatchServe?
    ensures SameFuture(s.book, Resume(s, c, i).book, x)
  {
    FutureWrites(x);
    hide Advance, Mark, Move;
  }

  lemma EndVerdict(s: Sched, c: Config, i: Inputs, x: SlotId)
    requires IsPending(s.book, x) && EndsSlot(s.pc)
    ensures VerdictStep(s, Resume(s, c, i), c, Worker(i), x)
  {
    if s.pc.TdAudit? && s.pc.why == LoadFail {
      LoadFailVerdict(s, x);
      assert Resume(s, c, i) == AfterTeardown(s.(side := s.side.(active := None)), s.pc.id, LoadFail) by {
        hide AfterTeardown;
      }
      hide Resume, AfterTeardown, VerdictStep, IsPending;
      LoadFailBlame(s, Resume(s, c, i), c, i, x);
    } else {
      EndLeaves(s, c, i, x);
      assert Blame(s, c, Worker(i), x).None? && !Answers(s, Worker(i), x);
      hide Resume, VerdictStep, Blame, Answers;
      JustLeft(s, Resume(s, c, i), c, Worker(i), x);
    }
  }

  lemma LoadFailBlame(s: Sched, s': Sched, c: Config, i: Inputs, x: SlotId)
    requires IsPending(s.book, x) && s.pc.TdAudit? && s.pc.why == LoadFail
    requires if x == s.pc.id then Has(s'.book, x, Failed("loading-fail-health-timeout")) else LeftFuture(s, s', x)
    ensures VerdictStep(s, s', c, Worker(i), x)
  {
    if x != s.pc.id {
      JustLeft(s, s', c, Worker(i), x);
    }
  }

  lemma LoadFailVerdict(s: Sched, x: SlotId)
    requires s.pc.TdAudit? && s.pc.why == LoadFail && IsPending(s.book, x)
    ensures var s' := AfterTeardown(s.(side := s.side.(active := None)), s.pc.id, LoadFail);
            if x == s.pc.id then Has(s'.book, x, Failed("loading-fail-health-timeout")) else LeftFuture(s, s', x)
  {
    FutureWrites(x);
    FutureOut(x);
    hide Unwind;
  }

  lemma EndLeaves(s: Sched, c: Config, i: Inputs, x: SlotId)
    requires EndsSlot(s.pc) && !(s.pc.TdAudit? && s.pc.why == LoadFail)
    ensures LeftFuture(s, Resume(s, c, i), x)
  {
    FutureWrites(x);
    FutureOut(x);
    hide Unwind, Leave, ForceCold, AfterTeardown, Mark, Freeze;
  }

  lemma GraceTopVerdict(s: Sched, c: Config, x: SlotId)
    requires s.pc.GraceTop?
    ensures LeftFuture(s, FromGraceTop(s, c, s.pc.id, s.pc.deadline), x)
  {
    FutureWrites(x);
    FutureOut(x);
    if s.pc.id in s.book.slots {
      var slot := s.book.slots[s.pc.id];
      var found := FirstMatch(s.book.q.staging, s.book.slots, slot.threadId, slot.modelTag);
      if found.Some? {
        PromoteFuture(s, found.value, x);
      }
    }
    hide BeginTeardown, FirstMatch, Move, PromoteMatch;
  }

  lemma PromoteFuture(s: Sched, at: nat, x: SlotId)
    requires at < |s.book.q.staging|
    ensures forall id, deadline :: SameFuture(s.book, PromoteMatch(s, id, at, deadline).book, x)
  {
    hide Without;
  }

  // ---- the top of the worker's loop ----

  /** `pop_next` hands over the head of the line, flagged if its client is gone, and settles nobody. */
  lemma PopVerdict(s: Sched, c: Config, x: SlotId)
    requires Inv(s) && ConfigOk(c) && s.pc.Head? && x in s.book.slots
    ensures var b, line := PopBook(s.book, c), Line(s.book.q);
            && PoppedBy(s.book.q, c) == (if line == [] then None else Some(line[0]))
            && x in b.slots && b.slots[x].future == s.book.slots[x].future
            && (line != [] && line[0] == x ==>
                  (b.slots[x].evicted <==> s.book.slots[x].disconnected || s.book.slots[x].evicted))
  {
    PopTakesHeadOfLine(s.book.q, c.stagingMax);
    PopSlotAt(s.book, c, x);
    hide Inv, PopBook, Popped, Promoted;
  }

  lemma HeadVerdict(s: Sched, c: Config, i: Inputs, x: SlotId)
    requires Inv(s) && ConfigOk(c) && s.pc.Head? && IsPending(s.book, x)
    ensures VerdictStep(s, FromHead(s, c, i), c, Worker(i), x)
  {
    HeadFuture(s, c, i, x);
    hide Inv, FromHead, AtHeadGone;
  }

  lemma HeadFuture(s: Sched, c: Config, i: Inputs, x: SlotId)
    requires Inv(s) && ConfigOk(c) && s.pc.Head? && IsPending(s.book, x)
    ensures var s' := FromHead(s, c, i);
            if AtHeadGone(s, x) then Has(s'.book, x, Failed("evicted")) else LeftFuture(s, s', x)
  {
    hide Inv, PopBook, Popped, StartSlot, Settle, Line, Handling, Promoted, AfterPop;
    var b, popped := PopBook(s.book, c), PoppedBy(s.book.q, c);
    PopVerdict(s, c, x);
    if !s.stop && popped.Some? {
      PoppedFuture(s, c, i, b, popped.value, x);
    }
  }

  /** What becomes of `x` when `id` has been popped, by whether it is evicted. */
  lemma PoppedFuture(s: Sched, c: Config, i: Inputs, b: Book, id: SlotId, x: SlotId)
    requires s.pc.Head? && !s.stop && IsPending(s.book, x)
    requires b == PopBook(s.book, c) && Popped(s.book.q, c.stagingMax) == Some(id)
    requires x in b.slots && b.slots[x].future == s.book.slots[x].future
    ensures var s' := FromHead(s, c, i);
            if id == x && b.slots[x].evicted then Has(s'.book, x, Failed("evicted")) else LeftFuture(s, s', x)
  {
    hide PopBook, Popped, StartSlot, Settle, Handling;
    StartVerdict(s.(book := b, activeSlot := Some(id), latest := None), id, i, x);
    if id in b.slots && b.slots[id].evicted {
      EvictFuture(b, id, x);
    }
  }

  lemma EvictFuture(b: Book, id: SlotId, x: SlotId)
    requires id in b.slots && IsPending(b, x)
    ensures var b' := Settle(b, id, Failed("evicted"));
            if id == x then Has(b', x, Failed("evicted")) else x in b'.slots && b'.slots[x] == b.slots[x]
  {
  }

  lemma StartVerdict(s: Sched, id: SlotId, i: Inputs, x: SlotId)
    ensures LeftFuture(s, StartSlot(s, id, i), x)
  {
    FutureWrites(x);
    FutureOut(x);
    hide Unwind, Advance;
  }

  // ---- every event ----

  lemma WorkerVerdict(s: Sched, c: Config, i: Inputs, x: SlotId)
    requires Inv(s) && ConfigOk(c) && IsPending(s.book, x)
    ensures VerdictStep(s, Resume(s, c, i), c, Worker(i), x)
  {
    if s.pc.Head? {
      HeadVerdict(s, c, i, x);
    } else if s.pc.GraceTop? {
      GraceTopVerdict(s, c, x);
    } else if InLoop(s.pc) {
      LoopVerdict(s, c, i, x);
    } else if EndsSlot(s.pc) {
      EndVerdict(s, c, i, x);
    } else {
      LoadVerdict(s, c, i, x);
    }
    hide Inv, FromHead, FromGraceTop, IsPending;
  }

  lemma CancelVerdict(s: Sched, c: Config, x: SlotId)
    requires IsPending(s.book, x) && !s.pc.GraceTop?
    ensures VerdictStep(s, Cancel(s), c, ShutdownAsked, x)
  {
    if s.pc.MatchServe? {
      CancelledFuture(s, x);
    } else {
      CancelSameBook(s);
    }
    hide Cancel;
  }

  lemma CancelledFuture(s: Sched, x: SlotId)
    requires IsPending(s.book, x) && s.pc.MatchServe?
    ensures var b := Cancel(s).book;
            if x == s.pc.m then Has(b, x, Failed("shutdown during active_match")) else SameFuture(s.book, b, x)
  {
    FutureWrites(x);
    hide Move, HandOff;
  }

  lemma TaskVerdict(s: Sched, c: Config, e: Event, x: SlotId)
    requires IsPending(s.book, x) && Allowed(s, e) && !e.Worker? && e != ShutdownAsked
    ensures VerdictStep(s, Step(s, c, e), c, e, x)
  {
    if e.Request? {
      SubmitFuture(s, c, e, x);
    }
    assert Line(s.book.q) == s.book.q.staging + s.book.q.buf;
    hide Resume, Cancel, Submit, TakeIdle, Upsert, Kill;
  }

  lemma SubmitFuture(s: Sched, c: Config, e: Event, x: SlotId)
    requires e.Request? && e.id !in s.book.slots
    ensures SameFuture(s.book, Submit(s, c, e.id, e.threadId, e.modelTag, e.keepAlive, e.wait).book, x)
  {
    hide Upserted, Admit, AfterEnqueue;
  }

  /** Over every run, for a caller who is waiting: in the next event he is answered if and only if it is his slot's
      completion and it succeeds; he is gone if and only if he gives up; he is failed for each of the reasons of `Blame`
      exactly when it applies, and besides only by the worker's handler of uncaught exceptions. */
  lemma VerdictsExactly(c: Config, events: seq<Event>, k: nat, x: SlotId)
    requires RunOf(c, events) && k < |events| && IsPending(StateAt(c, events, k).book, x)
    ensures VerdictStep(StateAt(c, events, k), StateAt(c, events, k + 1), c, events[k], x)
  {
    var s, e := StateAt(c, events, k), events[k];
    ReachedOk(c, events, k);
    hide VerdictStep, IsPending, StateAt;
    if e.Worker? {
      WorkerVerdict(s, c, e.i, x);
    } else if e == ShutdownAsked {
      CancelVerdict(s, c, x);
    } else {
      TaskVerdict(s, c, e, x);
      hide Step;
    }
    hide Inv, Resume, Cancel;
  }
}
