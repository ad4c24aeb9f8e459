/** Which callers a shutdown leaves without an answer. */
module SchedulerShutdown {
  import opened Wrappers
  import opened Fsm
  import opened Slots
  import opened Queue
  import opened StateDb
  import opened Timers
  import opened Scheduler
  import opened SchedulerInvariant
  import opened SchedulerFrames
  import opened SchedulerTheorems

  /** The slot's future is pending, and it is not the follow-up being answered, which a cancellation fails. */
  predicate LeftPending(s: Sched, id: SlotId) {
    id in s.book.slots && s.book.slots[id].future == Pending && !(s.pc.MatchServe? && id == s.pc.m)
  }

  /** The worker was cancelled with at most `hand`, and `id`, which it had, is pending exactly if `pending`. */
  predicate KeptPending(s: Sched, hand: set<SlotId>, id: SlotId, pending: bool) {
    && CancelledOk(s, hand) && s.stop && id in s.book.slots && !Queued(s.book.q, id)
    && (s.book.slots[id].future == Pending <==> pending)
  }

  lemma CancelPends(s: Sched, id: SlotId)
    requires Inv(s) && !s.pc.GraceTop? && id in Hand(s.pc)
    ensures KeptPending(Cancel(s), Hand(s.pc), id, LeftPending(s, id))
  {
    assert !s.pc.Drift? by {
      hide PlaceOk, Distinct, SideOk;
    }
    CancelLeavesHand(s);
    HandFacts(s.book, Hand(s.pc), id);
    hide Inv, CancelledOk, Hand, Alive, LegalHistory;
  }

  /** A cancelled worker leaves the slots and the queue alone. */
  lemma CancelledWorker(s: Sched, c: Config, i: Inputs, hand: set<SlotId>)
    requires CancelledOk(s, hand)
    ensures var s' := Resume(s, c, i);
            s'.book.slots == s.book.slots && s'.book.q == s.book.q && s'.stop == s.stop
  {
    hide Alive, Hand;
  }

  lemma PendStep(s: Sched, c: Config, e: Event, hand: set<SlotId>, id: SlotId, pending: bool)
    requires KeptPending(s, hand, id, pending) && Allowed(s, e)
    ensures KeptPending(Step(s, c, e), hand, id, pending && e != GiveUp(id))
  {
    CancelledStep(s, c, e, hand);
    if e.Worker? {
      CancelledWorker(s, c, e.i, hand);
    }
    assert Line(s.book.q) == s.book.q.staging + s.book.q.buf;
    hide CancelledOk, Resume, TakeIdle, Upsert;
  }

  /** The caller of `id` gave up in one of these events. */
  ghost predicate GaveUp(events: seq<Event>, j: nat, k: nat, id: SlotId)
    requires k <= |events|
  {
    exists i :: j <= i < k && events[i] == GiveUp(id)
  }

  lemma {:induction false} PendReached(c: Config, events: seq<Event>, k0: nat, k: nat, id: SlotId)
    requires RunOf(c, events) && k0 < k <= |events| && events[k0] == ShutdownAsked
    requires id in Hand(StateAt(c, events, k0).pc)
    ensures var asked := StateAt(c, events, k0);
            KeptPending(StateAt(c, events, k), Hand(asked.pc), id,
                        LeftPending(asked, id) && !GaveUp(events, k0 + 1, k, id))
    decreases k
  {
    hide Inv, KeptPending, Hand, Step, Allowed, LeftPending, RunOf, StateAt, Cancel, GaveUp;
    var asked, s := StateAt(c, events, k0), StateAt(c, events, k - 1);
    ReachedOk(c, events, k - 1);
    if k == k0 + 1 {
      assert !asked.pc.GraceTop? && Step(asked, c, ShutdownAsked) == Cancel(asked) by {
        AskedAt(asked, c);
      }
      CancelPends(asked, id);
      NoneGaveUp(events, k, id);
    } else {
      PendReached(c, events, k0, k - 1, id);
      PendStep(s, c, events[k - 1], Hand(asked.pc), id, LeftPending(asked, id) && !GaveUp(events, k0 + 1, k - 1, id));
      GaveUpNext(events, k0 + 1, k - 1, id);
    }
  }

  lemma AskedAt(s: Sched, c: Config)
    requires Allowed(s, ShutdownAsked)
    ensures !s.pc.GraceTop? && Step(s, c, ShutdownAsked) == Cancel(s)
  {
    hide Cancel;
  }

  lemma NoneGaveUp(events: seq<Event>, j: nat, id: SlotId)
    requires j <= |events|
    ensures !GaveUp(events, j, j, id)
  {
  }

  lemma GaveUpNext(events: seq<Event>, j: nat, k: nat, id: SlotId)
    requires j <= k < |events|
    ensures GaveUp(events, j, k + 1, id) <==> GaveUp(events, j, k, id) || events[k] == GiveUp(id)
  {
  }

  /** After a shutdown a future is pending if and only if its slot was in hand at the cancellation with a pending
      future, was not the follow-up being answered, and its caller has not given up since. */
  lemma PendingAfterShutdown(c: Config, events: seq<Event>, k0: nat, k: nat, id: SlotId)
    requires RunOf(c, events) && k0 < k <= |events| && events[k0] == ShutdownAsked
    requires StateAt(c, events, k).shut == Complete
    ensures var asked, b := StateAt(c, events, k0), StateAt(c, events, k).book;
            (id in b.slots && b.slots[id].future == Pending) <==>
            (id in Hand(asked.pc) && LeftPending(asked, id) && !GaveUp(events, k0 + 1, k, id))
  {
    SettledAfterShutdown(c, events, k0, k, id, 0);
    if id in Hand(StateAt(c, events, k0).pc) {
      PendReached(c, events, k0, k, id);
    }
    hide RunOf, StateAt, GaveUp, Hand, LeftPending;
  }
}
