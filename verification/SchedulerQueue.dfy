/** What the queue operations and the other tasks' writes do to the book's invariant. */
module SchedulerQueue {
  import opened Wrappers
  import opened Fsm
  import opened Slots
  import opened Queue
  import opened QueueRuns
  import opened StateDb
  import opened Scheduler
  import opened SchedulerInvariant

  lemma TierCounts(q: QueueState, n: nat, x: SlotId)
    requires n <= |q.buf| && Distinct(Line(q))
    ensures Count(q.staging, x) + Count(q.buf[..n], x) + Count(q.buf[n..], x) <= 1
  {
    assert q.buf == q.buf[..n] + q.buf[n..];
    CountAppend(q.staging, q.buf, x);
    CountAppend(q.buf[..n], q.buf[n..], x);
    assert Count(Line(q), x) <= 1;
  }

  /** Where `pop_next` leaves each slot. */
  lemma PopTiers(q: QueueState, c: Config, x: SlotId)
    requires Distinct(Line(q)) && ConfigOk(c)
    ensures var q', up, popped := AfterPop(q, c.stagingMax), Promoted(q, c.stagingMax), Popped(q, c.stagingMax);
            && (x in up ==> x in q.buf && x !in q.staging && x !in q'.buf)
            && (x in q'.staging ==> x in q.staging || x in up)
            && (x in q'.buf ==> x in q.buf)
            && (popped == Some(x) ==> x in q.staging || x in up)
            && Count(up, x) <= 1
  {
    hide Distinct;
    var n := PromotedCount(q, c.stagingMax);
    TierCounts(q, n, x);
    InIsCounted(q.staging, x);
    InIsCounted(q.buf[..n], x);
    InIsCounted(q.buf[n..], x);
    assert q.buf == q.buf[..n] + q.buf[n..];
  }

  lemma PopLeavesOthersQueued(q: QueueState, c: Config, x: SlotId)
    requires Distinct(Line(q)) && ConfigOk(c)
    ensures Distinct(Line(AfterPop(q, c.stagingMax)))
    ensures Queued(AfterPop(q, c.stagingMax), x) <==> Queued(q, x) && PoppedBy(q, c) != Some(x)
  {
    hide Distinct, AfterPop;
    var caps := Caps(c.stagingMax, c.acceptanceMax);
    QueueOpKeepsPlaces(q, Pop, caps);
    PopTakesHeadOfLine(q, c.stagingMax);
    assert Apply(q, Pop, caps) == AfterPop(q, c.stagingMax);
    assert x in HandedOut(q, Pop, caps) <==> PoppedBy(q, c) == Some(x);
    assert Entering(q, Pop, caps) == [];
  }

  function PoppedBy(q: QueueState, c: Config): Option<SlotId> {
    Popped(q, c.stagingMax)
  }

  lemma {:induction false} AllStagedAt(slots: map<SlotId, Slot>, ids: seq<SlotId>, x: SlotId)
    requires x in slots && Count(ids, x) <= 1
    ensures AllStaged(slots, ids)[x] == if x in ids then Moved(slots[x], STAGED) else slots[x]
    decreases ids
  {
    if ids != [] {
      var front, last := ids[..|ids| - 1], ids[|ids| - 1];
      assert ids == front + [last];
      CountAppend(front, [last], x);
      InIsCounted(front, x);
      AllStagedAt(slots, front, x);
    }
  }

  /** One slot after `pop_next`. */
  function PoppedSlot(b: Book, c: Config, x: SlotId): Slot
    requires x in b.slots
  {
    var s := if x in Promoted(b.q, c.stagingMax) then Moved(b.slots[x], STAGED) else b.slots[x];
    if PoppedBy(b.q, c) == Some(x) && s.disconnected then s.(evicted := true) else s
  }

  lemma PopSlotAt(b: Book, c: Config, x: SlotId)
    requires Distinct(Line(b.q)) && ConfigOk(c) && x in b.slots
    ensures x in PopBook(b, c).slots && PopBook(b, c).slots[x] == PoppedSlot(b, c, x)
  {
    PopTiers(b.q, c, x);
    AllStagedAt(b.slots, Promoted(b.q, c.stagingMax), x);
  }

  /** The slot `pop_next` hands to the worker. */
  function PopHand(b: Book, c: Config): set<SlotId> {
    if PoppedBy(b.q, c).None? then {} else {PoppedBy(b.q, c).value}
  }

  lemma SameHistory(s: Slot, s': Slot)
    requires s.trail == s'.trail && s.state == s'.state && LegalHistory(s)
    ensures LegalHistory(s')
  {
  }

  /** Where `pop_next` puts one slot of the book, and in what state. */
  lemma PopOne(b: Book, c: Config, x: SlotId)
    requires BookOk(b, {}) && ConfigOk(c)
    ensures PlaceOk(PopBook(b, c), PopHand(b, c), x)
    ensures x in PopHand(b, c) ==> At(PopBook(b, c), x, STAGED) && PopBook(b, c).slots[x].pid.None?
  {
    hide AfterPop, Popped, Promoted, AllStaged, Flagged, LegalHistory, Distinct;
    assert PlaceOk(b, {}, x);
    PopTiers(b.q, c, x);
    PopLeavesOthersQueued(b.q, c, x);
    if x in b.slots {
      PopSlotAt(b, c, x);
      if x in Promoted(b.q, c.stagingMax) {
        MovedKeepsLegalHistory(b.slots[x], STAGED);
        SameHistory(Moved(b.slots[x], STAGED), PopBook(b, c).slots[x]);
      } else {
        SameHistory(b.slots[x], PopBook(b, c).slots[x]);
      }
    } else {
      PopKeys(b, c, x);
    }
  }

  lemma PopKeys(b: Book, c: Config, x: SlotId)
    ensures x in PopBook(b, c).slots <==> x in b.slots
  {
  }

  /** `pop_next` hands over a slot that is nowhere else and is STAGED. */
  lemma PopBookKeeps(b: Book, c: Config)
    requires BookOk(b, {}) && ConfigOk(c)
    ensures BookOk(PopBook(b, c), PopHand(b, c))
    ensures forall id :: id in PopHand(b, c) ==> At(PopBook(b, c), id, STAGED) && PopBook(b, c).slots[id].pid.None?
  {
    PopLeavesOthersQueued(b.q, c, 0);
    hide AfterPop, Popped, Promoted, AllStaged, Flagged, Distinct, PlaceOk, PoppedBy;
    forall x
      ensures PlaceOk(PopBook(b, c), PopHand(b, c), x)
      ensures x in PopHand(b, c) ==> At(PopBook(b, c), x, STAGED) && PopBook(b, c).slots[x].pid.None?
    {
      PopOne(b, c, x);
    }
  }

  /** `pop_matched_thread` hands over a slot that is nowhere else and is STAGED. */
  lemma TakeKeeps(b: Book, hand: set<SlotId>, at: nat)
    requires BookOk(b, hand) && at < |b.q.staging|
    ensures var m := b.q.staging[at];
            var b' := b.(q := b.q.(staging := Without(b.q.staging, at)), slots := Flagged(b.slots, Some(m)));
            && m !in hand && BookOk(b', hand + {m}) && At(b', m, STAGED)
  {
    var m := b.q.staging[at];
    var b' := b.(q := b.q.(staging := Without(b.q.staging, at)), slots := Flagged(b.slots, Some(m)));
    QueueOpKeepsPlaces(b.q, Take(at), Caps(1, 1));
    assert PlaceOk(b, hand, m);
    hide LegalHistory, Distinct;
    forall x ensures PlaceOk(b', hand + {m}, x) {
      assert PlaceOk(b, hand, x);
      if x in b.slots {
        SameHistory(b.slots[x], b'.slots[x]);
      }
    }
  }

  /** A slot popped as evicted is finished where it stands. */
  lemma EvictKeeps(b: Book, id: SlotId)
    requires BookOk(b, {id}) && At(b, id, STAGED) && b.slots[id].evicted
    ensures BookOk(Settle(b, id, Failed("evicted")).(gone := b.gone + [id]), {})
  {
    HandFacts(b, {id}, id);
    SettleKeeps(b, {id}, id, Failed("evicted"));
    var b1 := Settle(b, id, Failed("evicted"));
    var b' := b1.(gone := b.gone + [id]);
    forall x ensures Count(b'.gone, x) <= 1 {
      CountAppend(b.gone, [id], x);
      InIsCounted(b.gone, x);
      assert Count(b.gone, x) <= 1;
    }
    hide LegalHistory, Distinct;
    forall x ensures PlaceOk(b', {}, x) {
      assert PlaceOk(b1, {id}, x);
    }
  }

  /** Letting a fresh slot in, at either end of either tier. */
  lemma LetInKeeps(b: Book, hand: set<SlotId>, id: SlotId, op: Op, slot: Slot, c: Config, now: int)
    requires BookOk(b, hand) && id !in b.slots && ConfigOk(c) && (op == Fresh(id) || op == AtHead(id))
    requires !b.q.closed && Entering(b.q, op, Caps(c.stagingMax, c.acceptanceMax)) == [id]
    requires var q' := Apply(b.q, op, Caps(c.stagingMax, c.acceptanceMax));
             slot.state == (if id in q'.staging then STAGED else ACCEPT_BUFFER)
    requires LegalHistory(slot) && slot.pid.None?
    ensures BookOk(LetIn(b, id, slot, Apply(b.q, op, Caps(c.stagingMax, c.acceptanceMax)), now), hand)
    ensures !Queued(b.q, id)
  {
    var caps := Caps(c.stagingMax, c.acceptanceMax);
    var q' := Apply(b.q, op, caps);
    var b' := LetIn(b, id, slot, q', now);
    assert PlaceOk(b, hand, id);
    QueueOpKeepsPlaces(b.q, op, caps);
    assert HandedOut(b.q, op, caps) == [];
    hide LegalHistory, Distinct;
    forall x ensures PlaceOk(b', hand, x) {
      assert PlaceOk(b, hand, x);
      LetInTiers(b.q, op, caps, x);
    }
  }

  lemma LetInTiers(q: QueueState, op: Op, caps: Caps, x: SlotId)
    requires op.Fresh? || op.AtHead?
    ensures x != op.id ==> (x in Apply(q, op, caps).staging <==> x in q.staging)
    ensures x != op.id ==> (x in Apply(q, op, caps).buf <==> x in q.buf)
    ensures !Queued(q, op.id) ==> !(op.id in Apply(q, op, caps).staging && op.id in Apply(q, op, caps).buf)
  {
  }

  /** Writes clients make to a slot wherever it is: a disconnect flag, or a future cancelled. */
  lemma ClientWriteKeeps(b: Book, hand: set<SlotId>, id: SlotId, slot: Slot)
    requires BookOk(b, hand) && id in b.slots
    requires slot == b.slots[id].(disconnected := slot.disconnected, future := slot.future)
    requires slot.future == Pending ==> b.slots[id].future == Pending
    ensures BookOk(b.(slots := b.slots[id := slot]), hand)
  {
    hide LegalHistory, Distinct;
    var b' := b.(slots := b.slots[id := slot]);
    forall x ensures PlaceOk(b', hand, x) {
      assert PlaceOk(b, hand, x);
      if x == id {
        SameHistory(b.slots[x], slot);
      }
    }
  }

  /** A sweep ends only rows of slots in hand or still open. */
  lemma SweptKeeps(b: Book, hand: set<SlotId>, ids: set<SlotId>, now: int)
    requires BookOk(b, hand) && forall x :: x in ids && x !in hand ==> x in b.rows && b.rows[x].state != COLD
    ensures BookOk(Swept(b, ids, now), hand)
  {
    hide LegalHistory, Distinct;
    forall x ensures PlaceOk(Swept(b, ids, now), hand, x) {
      assert PlaceOk(b, hand, x);
    }
  }

  /** Closing the queue drops every queued slot with its future failed. */
  lemma CloseKeeps(s: Sched, hand: set<SlotId>)
    requires BookOk(s.book, hand)
    ensures BookOk(Close(s).book, hand)
  {
    var b, b' := s.book, Close(s).book;
    assert Line(b'.q) == [];
    hide LegalHistory, Distinct;
    forall x ensures PlaceOk(b', hand, x) {
      assert PlaceOk(b, hand, x);
      if x in b.slots {
        SameHistory(b.slots[x], b'.slots[x]);
      }
    }
    assert Distinct(Line(b'.q)) by {
      EmptyIsDistinct();
    }
  }

  lemma EmptyIsDistinct()
    ensures Distinct([])
  {
  }
}
