/** What whole runs do to rows: when a row is ended, which a sweep may end, and exactly when an ended row is
    reopened. */
module SchedulerRowRuns {
  import opened Wrappers
  import opened Fsm
  import opened Slots
  import opened Queue
  import opened StateDb
  import opened Scheduler
  import opened SchedulerInvariant
  import opened SchedulerFrames
  import opened SchedulerWriting
  import opened SchedulerTheorems
  import opened SchedulerFutures
  import opened SchedulerRows

  /** In every run: what is still to be written has left STAGED, and its row too once a write has landed, so that from
      then on no sweep takes it. */
  lemma {:induction false} RowsReached(c: Config, events: seq<Event>, k: nat, x: SlotId)
    requires RunOf(c, events) && k <= |events|
    ensures UpsOk(StateAt(c, events, k), x)
    decreases k
  {
    hide Inv, Allowed, Step, RowStep;
    if k > 0 {
      RowsReached(c, events, k - 1, x);
      OneStep(c, events, k - 1, x);
      StepIsUps(StateAt(c, events, k - 1), StateAt(c, events, k), events[k - 1], x);
    }
  }

  lemma StepIsUps(s: Sched, s': Sched, e: Event, x: SlotId)
    requires RowStep(s, s', e, x)
    ensures UpsOk(s', x)
  {
  }

  /** One step of a run, as far as one slot's row goes. */
  lemma OneStep(c: Config, events: seq<Event>, k: nat, x: SlotId)
    requires RunOf(c, events) && k < |events| && UpsOk(StateAt(c, events, k), x)
    ensures RowStep(StateAt(c, events, k), StateAt(c, events, k + 1), events[k], x)
  {
    ReachedOk(c, events, k);
    hide Inv, Allowed, Step, RowStep;
    StepRows(StateAt(c, events, k), c, events[k], x);
  }

  lemma RunStep(c: Config, events: seq<Event>, k: nat, x: SlotId)
    requires RunOf(c, events) && k < |events|
    ensures RowStep(StateAt(c, events, k), StateAt(c, events, k + 1), events[k], x)
  {
    RowsReached(c, events, k, x);
    OneStep(c, events, k, x);
  }

  // ---- rows of queued and evicted slots ----

  /** A slot whose row a thread writes is in hand. */
  lemma WrittenInHand(c: Config, events: seq<Event>, k: nat, x: SlotId)
    requires RunOf(c, events) && k <= |events| && StateAt(c, events, k).book.writing == Some(x)
    ensures x in StateAt(c, events, k).book.slots && !Tracked(StateAt(c, events, k).book, x)
  {
    ReachedOk(c, events, k);
    var s := StateAt(c, events, k);
    WritingInHand(s);
    HandFacts(s.book, Hand(s.pc), x);
    hide LegalHistory, PcOk, SideOk, CountOk, Hand, StateAt;
  }

  /** An open row of a queued or evicted slot is as it was written when the slot was let in. */
  predicate TrackOk(b: Book, x: SlotId) {
    Tracked(b, x) ==>
      x in b.rows && x in b.slots && b.slots[x].trail != []
      && (b.rows[x].endedAt.None? ==> b.rows[x].pid.None? && b.rows[x].state == LetInAs(b.slots[x]))
  }

  lemma {:induction false} TrackReached(c: Config, events: seq<Event>, k: nat, x: SlotId)
    requires RunOf(c, events) && k <= |events|
    ensures TrackOk(StateAt(c, events, k).book, x)
    decreases k
  {
    if k > 0 {
      var s := StateAt(c, events, k - 1);
      TrackReached(c, events, k - 1, x);
      RunStep(c, events, k - 1, x);
      if s.book.writing == Some(x) {
        WrittenInHand(c, events, k - 1, x);
      }
      if x in s.book.slots {
        FuturesAreFinal(c, events, k - 1, k, x);
      }
      if Watched(s, x) {
        WatchedAt(c, events, k - 1, x);
      }
      hide RunOf, StateAt, RowStep, TrackOk, Kept, Watched;
      TrackStep(s, StateAt(c, events, k), events[k - 1], x);
    }
  }

  lemma WatchedAt(c: Config, events: seq<Event>, k: nat, x: SlotId)
    requires RunOf(c, events) && k <= |events| && Watched(StateAt(c, events, k), x)
    ensures x in StateAt(c, events, k).book.slots
  {
    ReachedOk(c, events, k);
    RowsReached(c, events, k, x);
    WatchedRow(StateAt(c, events, k), x);
    hide Inv;
  }

  lemma TrackStep(s: Sched, s': Sched, e: Event, x: SlotId)
    requires RowStep(s, s', e, x) && TrackOk(s.book, x)
    requires s.book.writing == Some(x) ==> !Tracked(s.book, x)
    requires Watched(s, x) ==> x in s.book.slots
    requires x in s.book.slots ==> x in s'.book.slots && Kept(s.book.slots[x], s'.book.slots[x])
    ensures TrackOk(s'.book, x)
  {
    hide UpsOk, Upserting, Queued;
  }

  /** A slot dropped by shutdown was not evicted. */
  lemma DroppedStep(s: Sched, c: Config, e: Event, x: SlotId)
    requires Inv(s) && ShutOk(s) && Allowed(s, e) && (x in s.book.dropped ==> x !in s.book.gone)
    ensures x in Step(s, c, e).book.dropped ==> x !in Step(s, c, e).book.gone
  {
    assert PlaceOk(s.book, Hand(s.pc), x);
    assert Line(s.book.q) == s.book.q.staging + s.book.q.buf;
    match e
    case Worker(i) => ResumeFrame(s, c, i);
    case ShutdownAsked => CancelFrame(s);
    case Request(id, threadId, modelTag, keepAlive, wait) => SubmitSide(s, c, id, threadId, modelTag, keepAlive, wait);
    case _ =>
    hide Inv, LegalHistory, Cancel, Submit, TakeIdle, AllSettled, EndedAll;
  }

  lemma {:induction false} DroppedReached(c: Config, events: seq<Event>, k: nat, x: SlotId)
    requires RunOf(c, events) && k <= |events|
    ensures var b := StateAt(c, events, k).book; x in b.dropped ==> x !in b.gone
    decreases k
  {
    hide Inv, Allowed, Step, ShutOk;
    if k > 0 {
      DroppedReached(c, events, k - 1, x);
      ReachedOk(c, events, k - 1);
      ShutReached(c, events, k - 1);
      DroppedStep(StateAt(c, events, k - 1), c, events[k - 1], x);
    }
  }

  /** The row of an evicted slot, if it is open, has no process, and a sweep takes it exactly if it is old enough
      and the slot was not let in through the acceptance buffer. */
  lemma EvictedRowIsSwept(c: Config, events: seq<Event>, k: nat, id: SlotId, cutoff: int)
    requires RunOf(c, events) && k <= |events|
    requires var b := StateAt(c, events, k).book; id in b.gone && (id in b.rows ==> b.rows[id].endedAt.None?)
    ensures var b := StateAt(c, events, k).book;
            && id in b.slots && id in b.rows && b.rows[id].pid.None?
            && (id in Stale(b.rows, cutoff) <==> b.rows[id].createdAt < cutoff && ACCEPT_BUFFER !in b.slots[id].trail)
  {
    TrackReached(c, events, k, id);
    DroppedReached(c, events, k, id);
    ReachedOk(c, events, k);
    var s := StateAt(c, events, k);
    assert PlaceOk(s.book, Hand(s.pc), id);
    BufferedIsSecond(s.book.slots[id]);
    hide Inv, LegalHistory, StateAt, LetInAs;
  }

  // ---- when a row is ended ----

  /** A thread's write of the slot's row lands in the k-th event. */
  predicate WrittenAt(c: Config, events: seq<Event>, k: nat, x: SlotId)
    requires k < |events|
  {
    Lands(StateAt(c, events, k), events[k]) == Some(x)
  }

  /** The k-th event is a sweep that takes the slot's row. */
  predicate TakenAt(events: seq<Event>, k: nat, x: SlotId)
    requires k < |events|
  {
    events[k].Sweep? && x in events[k].ids
  }

  ghost predicate Unwritten(c: Config, events: seq<Event>, j: nat, k: nat, x: SlotId)
    requires k <= |events|
  {
    forall i :: j <= i < k ==> !WrittenAt(c, events, i, x)
  }

  /** A sweep has taken the row, and no write of it has landed since. */
  ghost predicate TakenSince(c: Config, events: seq<Event>, k: nat, x: SlotId)
    requires k <= |events|
  {
    exists i :: 0 <= i < k && TakenAt(events, i, x) && Unwritten(c, events, i + 1, k, x)
  }

  lemma SinceNext(c: Config, events: seq<Event>, k: nat, x: SlotId)
    requires k < |events|
    ensures TakenSince(c, events, k + 1, x) <==>
            TakenAt(events, k, x) || (TakenSince(c, events, k, x) && !WrittenAt(c, events, k, x))
  {
    if TakenSince(c, events, k + 1, x) && !TakenAt(events, k, x) {
      var i :| 0 <= i < k + 1 && TakenAt(events, i, x) && Unwritten(c, events, i + 1, k + 1, x);
      assert Unwritten(c, events, i + 1, k, x);
    }
    if TakenAt(events, k, x) {
      assert Unwritten(c, events, k + 1, k + 1, x);
    } else if TakenSince(c, events, k, x) && !WrittenAt(c, events, k, x) {
      var i :| 0 <= i < k && TakenAt(events, i, x) && Unwritten(c, events, i + 1, k, x);
      assert Unwritten(c, events, i + 1, k + 1, x);
    }
  }

  /** Who is swept is known. */
  lemma TakenIsStale(c: Config, events: seq<Event>, k: nat, x: SlotId)
    requires RunOf(c, events) && k < |events| && TakenAt(events, k, x)
    ensures var b := StateAt(c, events, k).book; x in b.slots && x in b.rows && b.rows[x].state == STAGED
  {
    ReachedOk(c, events, k);
    var s := StateAt(c, events, k);
    assert PlaceOk(s.book, Hand(s.pc), x);
    assert x in Stale(s.book.rows, events[k].cutoff);
    hide Inv, LegalHistory, StateAt;
  }

  /** What was never known was never swept, written or watched. */
  lemma NothingBefore(c: Config, events: seq<Event>, k: nat, x: SlotId)
    requires RunOf(c, events) && k <= |events| && x !in StateAt(c, events, k).book.slots
    ensures !TakenSince(c, events, k, x) && Unwritten(c, events, 0, k, x)
  {
    forall i | 0 <= i < k ensures !TakenAt(events, i, x) && !WrittenAt(c, events, i, x) {
      if TakenAt(events, i, x) {
        TakenIsStale(c, events, i, x);
        FuturesAreFinal(c, events, i, k, x);
        assert false;
      }
      if WrittenAt(c, events, i, x) {
        WrittenInHand(c, events, i, x);
        FuturesAreFinal(c, events, i, k, x);
        assert false;
      }
    }
    hide RunOf, StateAt, WrittenAt;
  }

  /** The row of a slot that is queued, evicted or still to be written has been ended exactly if a sweep took it
      after the last write of it that landed. */
  lemma {:induction false} EndedExactly(c: Config, events: seq<Event>, k: nat, x: SlotId)
    requires RunOf(c, events) && k <= |events| && Watched(StateAt(c, events, k), x)
    ensures x in StateAt(c, events, k).book.rows
    ensures IsEnded(StateAt(c, events, k).book, x) <==> TakenSince(c, events, k, x)
    decreases k
  {
    if k > 0 {
      var s, s', e := StateAt(c, events, k - 1), StateAt(c, events, k), events[k - 1];
      RunStep(c, events, k - 1, x);
      SinceNext(c, events, k - 1, x);
      if s.book.writing == Some(x) {
        WrittenInHand(c, events, k - 1, x);
      }
      if Watched(s, x) {
        EndedExactly(c, events, k - 1, x);
      } else {
        NothingBefore(c, events, k - 1, x);
        if TakenAt(events, k - 1, x) {
          TakenIsStale(c, events, k - 1, x);
        }
      }
      hide RunOf, StateAt, TakenSince, UpsOk, Watched;
    }
  }

  /** A slot that is queued has not been written. */
  lemma {:induction false} QueuedIsUnwritten(c: Config, events: seq<Event>, k: nat, x: SlotId)
    requires RunOf(c, events) && k <= |events| && Queued(StateAt(c, events, k).book.q, x)
    ensures Unwritten(c, events, 0, k, x)
    decreases k
  {
    if k > 0 {
      var s := StateAt(c, events, k - 1);
      RunStep(c, events, k - 1, x);
      if x in s.book.slots {
        QueuedIsUnwritten(c, events, k - 1, x);
      } else {
        NothingBefore(c, events, k - 1, x);
      }
      if s.book.writing == Some(x) {
        WrittenInHand(c, events, k - 1, x);
      }
      hide RunOf, StateAt, UpsOk, Watched, RowAfter;
    }
  }

  /** The row of a queued slot has been ended exactly if a sweep took it. */
  lemma EndedWhileQueued(c: Config, events: seq<Event>, k: nat, x: SlotId)
    requires RunOf(c, events) && k <= |events| && Queued(StateAt(c, events, k).book.q, x)
    ensures x in StateAt(c, events, k).book.rows
    ensures IsEnded(StateAt(c, events, k).book, x) <==> exists i :: 0 <= i < k && TakenAt(events, i, x)
  {
    EndedExactly(c, events, k, x);
    QueuedIsUnwritten(c, events, k, x);
    if i: nat :| i < k && TakenAt(events, i, x) {
      assert Unwritten(c, events, i + 1, k, x);
    }
    hide RunOf, StateAt, WrittenAt;
  }

  // ---- when a row is reopened ----

  /** A row that is STAGED has not been written by the worker. */
  lemma {:induction false} StagedIsUnwritten(c: Config, events: seq<Event>, k: nat, x: SlotId)
    requires RunOf(c, events) && k <= |events|
    requires var b := StateAt(c, events, k).book; x in b.rows && b.rows[x].state == STAGED
    ensures Unwritten(c, events, 0, k, x)
    decreases k
  {
    if k > 0 {
      RunStep(c, events, k - 1, x);
      if x in StateAt(c, events, k - 1).book.slots {
        StagedIsUnwritten(c, events, k - 1, x);
      } else {
        NothingBefore(c, events, k - 1, x);
        if StateAt(c, events, k - 1).book.writing == Some(x) {
          WrittenInHand(c, events, k - 1, x);
        }
      }
      hide RunOf, StateAt, UpsOk, Watched, RowAfter;
    }
  }

  /** A row is reopened exactly when a write lands and a sweep took the row since the write before. */
  lemma {:induction false} ReopenedOnWrite(c: Config, events: seq<Event>, k: nat)
    requires RunOf(c, events) && k <= |events|
    ensures StateAt(c, events, k).book.reopened <==>
            exists j, x :: 0 <= j < k && WrittenAt(c, events, j, x) && TakenSince(c, events, j, x)
    decreases k
  {
    if k > 0 {
      var s := StateAt(c, events, k - 1);
      ReopenedOnWrite(c, events, k - 1);
      RunStep(c, events, k - 1, 0);
      if s.book.writing.Some? {
        EndedExactly(c, events, k - 1, s.book.writing.value);
      }
      hide RunOf, StateAt, UpsOk, RowAfter, TakenSince, Queued;
    }
  }

  lemma {:induction false} FirstWrite(c: Config, events: seq<Event>, i: nat, j: nat, x: SlotId) returns (h: nat)
    requires i < j < |events| && WrittenAt(c, events, j, x)
    ensures i < h <= j && WrittenAt(c, events, h, x) && Unwritten(c, events, i + 1, h, x)
    decreases j
  {
    if Unwritten(c, events, i + 1, j, x) {
      h := j;
    } else {
      var g :| i + 1 <= g < j && WrittenAt(c, events, g, x);
      h := FirstWrite(c, events, i, g, x);
    }
  }

  /** A sweep takes the row before the worker's first write of it has landed. */
  ghost predicate TakenFirst(c: Config, events: seq<Event>, i: nat, x: SlotId)
    requires i < |events|
  {
    TakenAt(events, i, x) && Unwritten(c, events, 0, i, x)
  }

  ghost predicate TakenThenWritten(c: Config, events: seq<Event>, k: nat)
    requires k <= |events|
  {
    exists i, j, x :: 0 <= i < j < k && TakenFirst(c, events, i, x) && WrittenAt(c, events, j, x)
  }

  /** Over every run: a row is upserted after it was ended if and only if some sweep took it before the worker's first
      write of it had landed, and a write of it landed later. */
  lemma ReopenedExactly(c: Config, events: seq<Event>, k: nat)
    requires RunOf(c, events) && k <= |events|
    ensures StateAt(c, events, k).book.reopened <==> TakenThenWritten(c, events, k)
  {
    ReopenedOnWrite(c, events, k);
    if StateAt(c, events, k).book.reopened {
      var j, x :| 0 <= j < k && WrittenAt(c, events, j, x) && TakenSince(c, events, j, x);
      var i :| 0 <= i < j && TakenAt(events, i, x) && Unwritten(c, events, i + 1, j, x);
      TakenIsStale(c, events, i, x);
      StagedIsUnwritten(c, events, i, x);
      assert TakenFirst(c, events, i, x);
    }
    if TakenThenWritten(c, events, k) {
      var i, j, x :| 0 <= i < j < k && TakenFirst(c, events, i, x) && WrittenAt(c, events, j, x);
      var h := FirstWrite(c, events, i, j, x);
      assert TakenSince(c, events, h, x);
    }
    hide RunOf, StateAt, WrittenAt;
  }

  /** What is watched and known before was watched before. */
  lemma {:induction false} WatchedBefore(c: Config, events: seq<Event>, i: nat, j: nat, x: SlotId)
    requires RunOf(c, events) && i <= j <= |events|
    requires Watched(StateAt(c, events, j), x) && x in StateAt(c, events, i).book.slots
    ensures Watched(StateAt(c, events, i), x)
    ensures x in StateAt(c, events, i).book.gone ==> x in StateAt(c, events, j).book.gone
    decreases j
  {
    if i < j {
      RunStep(c, events, j - 1, x);
      FuturesAreFinal(c, events, i, j - 1, x);
      hide RunOf, StateAt, UpsOk, Watched, RowAfter, Kept;
      WatchedBefore(c, events, i, j - 1, x);
    }
  }

  /** When a sweep takes a row that is written later, its slot is queued or the thread has not written it yet. */
  lemma TakenInTime(c: Config, events: seq<Event>, i: nat, j: nat, x: SlotId)
    requires RunOf(c, events) && i < j < |events| && TakenAt(events, i, x) && WrittenAt(c, events, j, x)
    ensures var b := StateAt(c, events, i).book; Queued(b.q, x) || b.writing == Some(x)
  {
    TakenIsStale(c, events, i, x);
    WrittenInHand(c, events, j, x);
    WatchedBefore(c, events, i, j, x);
    RowsReached(c, events, i, x);
    hide RunOf, StateAt, Upserting;
  }

  /** So while no sweep comes for a slot that is queued or whose row a thread has in hand, no row is upserted after it
      was ended. */
  lemma NoUpsertAfterEnd(c: Config, events: seq<Event>, k: nat)
    requires RunOf(c, events) && k <= |events|
    requires forall i, x: SlotId :: 0 <= i < k && TakenAt(events, i, x) ==>
               !Queued(StateAt(c, events, i).book.q, x) && StateAt(c, events, i).book.writing != Some(x)
    ensures !StateAt(c, events, k).book.reopened
  {
    ReopenedExactly(c, events, k);
    if TakenThenWritten(c, events, k) {
      var i, j, x :| 0 <= i < j < k && TakenFirst(c, events, i, x) && WrittenAt(c, events, j, x);
      TakenInTime(c, events, i, j, x);
      assert false;
    }
  }
}
