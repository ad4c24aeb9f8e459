/** The two-tier queue of queue.py: a capped staging deque fed by a capped acceptance buffer. */
module Queue {
  import opened Wrappers
  import opened Fsm
  import opened Slots

  datatype QueueState = QueueState(staging: seq<SlotId>, buf: seq<SlotId>, closed: bool)

  /** Both tiers as the one line they implement, next slot first. */
  function Line(q: QueueState): seq<SlotId> {
    q.staging + q.buf
  }

  datatype Admission = Staged | Buffered | RefusedClosed | RefusedFull

  function Admit(q: QueueState, stagingMax: int, acceptanceMax: int): Admission {
    if q.closed then RefusedClosed
    else if |q.staging| < stagingMax then Staged
    else if |q.buf| >= acceptanceMax then RefusedFull
    else Buffered
  }

  function AfterEnqueue(q: QueueState, id: SlotId, a: Admission): QueueState {
    match a
    case Staged => q.(staging := q.staging + [id])
    case Buffered => q.(buf := q.buf + [id])
    case RefusedClosed | RefusedFull => q
  }

  /** How many buffered slots one `pop_next` moves into staging: one if it popped from staging and that
      left room, and as many as fit if it found staging empty. */
  function PromotedCount(q: QueueState, stagingMax: int): (n: nat)
    ensures n <= |q.buf|
  {
    if q.staging != [] then
      if q.buf != [] && |q.staging| - 1 < stagingMax then 1 else 0
    else if stagingMax < 0 then 0
    else if |q.buf| < stagingMax then |q.buf| else stagingMax
  }

  function Promoted(q: QueueState, stagingMax: int): seq<SlotId> {
    q.buf[..PromotedCount(q, stagingMax)]
  }

  function Popped(q: QueueState, stagingMax: int): Option<SlotId> {
    var s := q.staging + Promoted(q, stagingMax);
    if s == [] then None else Some(s[0])
  }

  function AfterPop(q: QueueState, stagingMax: int): QueueState {
    var n := PromotedCount(q, stagingMax);
    var s := q.staging + q.buf[..n];
    q.(staging := if s == [] then s else s[1..], buf := q.buf[n..])
  }

  /** `pop_matched_thread` and `remove` delete one position of a deque. */
  function Without(ids: seq<SlotId>, i: nat): seq<SlotId>
    requires i < |ids|
  {
    ids[..i] + ids[i + 1..]
  }

  /** `ids` without the first occurrence of `id`. */
  function Minus(ids: seq<SlotId>, id: SlotId): seq<SlotId> {
    if ids == [] then [] else if ids[0] == id then ids[1..] else [ids[0]] + Minus(ids[1..], id)
  }

  function AfterRemove(q: QueueState, id: SlotId): QueueState {
    if id in q.staging then q.(staging := Minus(q.staging, id)) else q.(buf := Minus(q.buf, id))
  }

  lemma {:induction false} MinusAbsent(ids: seq<SlotId>, id: SlotId)
    requires id !in ids
    ensures Minus(ids, id) == ids
  {
    if ids != [] {
      MinusAbsent(ids[1..], id);
    }
  }

  lemma {:induction false} WithoutFirst(ids: seq<SlotId>, id: SlotId, i: nat)
    requires i < |ids| && ids[i] == id && id !in ids[..i]
    ensures Minus(ids, id) == Without(ids, i)
  {
    if i > 0 {
      assert ids[..i][0] == ids[0] && ids[..i][1..] == ids[1..][..i - 1];
      WithoutFirst(ids[1..], id, i - 1);
    }
  }

  predicate Matches(slots: map<SlotId, Slot>, id: SlotId, threadId: string, modelTag: string) {
    id in slots && slots[id].threadId == threadId && slots[id].modelTag == modelTag
  }

  /** The first staged slot of a thread and model; an empty thread id matches nothing. */
  function FirstMatch(ids: seq<SlotId>, slots: map<SlotId, Slot>, threadId: string, modelTag: string): (r: Option<nat>)
    ensures r.Some? ==> r.value < |ids| && Matches(slots, ids[r.value], threadId, modelTag)
    ensures r.Some? ==> forall j :: 0 <= j < r.value ==> !Matches(slots, ids[j], threadId, modelTag)
    ensures r.None? && threadId != "" ==> forall j :: 0 <= j < |ids| ==> !Matches(slots, ids[j], threadId, modelTag)
  {
    if threadId == "" || ids == [] then None
    else if Matches(slots, ids[0], threadId, modelTag) then Some(0)
    else match FirstMatch(ids[1..], slots, threadId, modelTag)
      case None => None
      case Some(i) => Some(i + 1)
  }

  /** The table after one slot's state is set to STAGED. */
  function StageOne(slots: map<SlotId, Slot>, id: SlotId): map<SlotId, Slot> {
    if id in slots then slots[id := Moved(slots[id], STAGED)] else slots
  }

  /** The table after the slots in `ids` are set to STAGED one after the other. */
  function AllStaged(slots: map<SlotId, Slot>, ids: seq<SlotId>): (r: map<SlotId, Slot>)
    ensures r.Keys == slots.Keys
  {
    if ids == [] then slots else StageOne(AllStaged(slots, ids[..|ids| - 1]), ids[|ids| - 1])
  }

  /** The table after a popped slot whose client has disconnected is flagged. */
  function Flagged(slots: map<SlotId, Slot>, popped: Option<SlotId>): map<SlotId, Slot> {
    if popped.Some? && popped.value in slots && slots[popped.value].disconnected
    then slots[popped.value := slots[popped.value].(evicted := true)]
    else slots
  }

  /** Every queued id has a record. */
  ghost predicate Known(ids: seq<SlotId>, slots: map<SlotId, Slot>) {
    forall id :: id in ids ==> id in slots
  }

  class TurbohaulQueue {
    const table: SlotTable
    const stagingMax: int
    const acceptanceMax: int
    var staging: seq<SlotId>
    var acceptBuf: seq<SlotId>
    var closed: bool

    ghost predicate Valid()
      reads this, table
    {
      Known(staging, table.at) && Known(acceptBuf, table.at)
    }

    function State(): QueueState
      reads this
    {
      QueueState(staging, acceptBuf, closed)
    }

    constructor (table: SlotTable, stagingMax: int, acceptanceMax: int)
      ensures this.table == table && this.stagingMax == stagingMax && this.acceptanceMax == acceptanceMax
      ensures State() == QueueState([], [], false)
    {
      this.table := table;
      this.stagingMax, this.acceptanceMax := stagingMax, acceptanceMax;
      staging, acceptBuf, closed := [], [], false;
    }

    method Enqueue(id: SlotId) returns (a: Admission)
      requires Valid() && id in table.at
      modifies this, table
      ensures Valid()
      ensures a == Admit(old(State()), stagingMax, acceptanceMax)
      ensures State() == AfterEnqueue(old(State()), id, a)
      ensures table.at == match a
                          case Staged => old(table.at)[id := Moved(old(table.at)[id], STAGED)]
                          case Buffered => old(table.at)[id := Moved(old(table.at)[id], ACCEPT_BUFFER)]
                          case RefusedClosed | RefusedFull => old(table.at)
    {
      if closed {
        return RefusedClosed;
      }
      if |staging| < stagingMax {
        table.at := table.at[id := Moved(table.at[id], STAGED)];
        staging := staging + [id];
        return Staged;
      }
      if |acceptBuf| >= acceptanceMax {
        return RefusedFull;
      }
      table.at := table.at[id := Moved(table.at[id], ACCEPT_BUFFER)];
      acceptBuf := acceptBuf + [id];
      return Buffered;
    }

    method EnqueueHead(id: SlotId) returns (accepted: bool)
      requires Valid() && id in table.at
      modifies this, table
      ensures Valid()
      ensures accepted == !old(closed)
      ensures State() == if accepted then old(State()).(staging := [id] + old(staging)) else old(State())
      ensures table.at == if accepted then old(table.at)[id := Moved(old(table.at)[id], STAGED)] else old(table.at)
    {
      if closed {
        return false;
      }
      table.at := table.at[id := Moved(table.at[id], STAGED)];
      staging := [id] + staging;
      return true;
    }

    /** `_pop_first_non_evicted_from` on staging: the head, flagged if its client is gone. The source
        loops over at most ten entries but returns in the first round, so none is ever skipped. */
    method PopFirst() returns (r: Option<SlotId>)
      requires Valid()
      modifies this`staging, table
      ensures Valid()
      ensures r == if old(staging) == [] then None else Some(old(staging)[0])
      ensures staging == if old(staging) == [] then [] else old(staging)[1..]
      ensures table.at == Flagged(old(table.at), r)
    {
      if staging == [] {
        return None;
      }
      var id := staging[0];
      staging := staging[1..];
      if table.at[id].disconnected {
        table.at := table.at[id := table.at[id].(evicted := true)];
      }
      return Some(id);
    }

    /** One buffered slot goes to the tail of staging. */
    method PromoteOne()
      requires Valid() && acceptBuf != []
      modifies this`staging, this`acceptBuf, table
      ensures Valid()
      ensures staging == old(staging) + [old(acceptBuf)[0]] && acceptBuf == old(acceptBuf)[1..]
      ensures table.at == StageOne(old(table.at), old(acceptBuf)[0])
    {
      var id := acceptBuf[0];
      acceptBuf := acceptBuf[1..];
      table.at := table.at[id := Moved(table.at[id], STAGED)];
      staging := staging + [id];
    }

    /** The drain loop of `pop_next`, reached with staging empty. */
    method FillFromBuffer()
      requires Valid() && staging == []
      modifies this`staging, this`acceptBuf, table
      ensures Valid()
      ensures staging == Promoted(old(State()), stagingMax)
      ensures acceptBuf == old(acceptBuf)[|staging|..]
      ensures table.at == AllStaged(old(table.at), staging)
    {
      ghost var buf, slots := acceptBuf, table.at;
      while acceptBuf != [] && |staging| < stagingMax
        invariant Valid()
        invariant |staging| <= |buf| && (|staging| > 0 ==> |staging| <= stagingMax)
        invariant staging == buf[..|staging|] && acceptBuf == buf[|staging|..]
        invariant table.at == AllStaged(slots, staging)
      {
        ghost var before := staging;
        PromoteOne();
        assert staging[..|staging| - 1] == before;
      }
    }

    method PopNext() returns (r: Option<SlotId>)
      requires Valid()
      modifies this, table
      ensures Valid()
      ensures r == Popped(old(State()), stagingMax)
      ensures State() == AfterPop(old(State()), stagingMax)
      ensures table.at == Flagged(AllStaged(old(table.at), Promoted(old(State()), stagingMax)), r)
    {
      if staging != [] {
        r := PopAndReplenish();
      } else {
        FillFromBuffer();
        r := PopFirst();
      }
    }

    /** `pop_next` when staging has a head. */
    method PopAndReplenish() returns (r: Option<SlotId>)
      requires Valid() && staging != []
      modifies this, table
      ensures Valid()
      ensures r == Popped(old(State()), stagingMax)
      ensures State() == AfterPop(old(State()), stagingMax)
      ensures table.at == Flagged(AllStaged(old(table.at), Promoted(old(State()), stagingMax)), r)
    {
      PopStagedHead(State(), table.at, stagingMax);
      r := PopFirst();
      if acceptBuf != [] && |staging| < stagingMax {
        PromoteOne();
      }
    }

    /** The first staged slot of the thread and model, taken out and flagged if its client is gone. */
    method PopMatchedThread(threadId: string, modelTag: string) returns (r: Option<SlotId>)
      requires Valid()
      modifies this, table
      ensures Valid()
      ensures var m := FirstMatch(old(staging), old(table.at), threadId, modelTag);
              && r == (if m.Some? then Some(old(staging)[m.value]) else None)
              && State() == (if m.Some? then old(State()).(staging := Without(old(staging), m.value)) else old(State()))
              && table.at == Flagged(old(table.at), r)
    {
      if threadId == "" {
        return None;
      }
      for i := 0 to |staging|
        invariant forall j :: 0 <= j < i ==> !Matches(table.at, staging[j], threadId, modelTag)
        invariant State() == old(State()) && table.at == old(table.at)
      {
        var id := staging[i];
        if table.at[id].threadId == threadId && table.at[id].modelTag == modelTag {
          FirstMatchIs(staging, table.at, threadId, modelTag, i);
          staging := staging[..i] + staging[i + 1..];
          if table.at[id].disconnected {
            table.at := table.at[id := table.at[id].(evicted := true)];
          }
          return Some(id);
        }
      }
      return None;
    }

    /** The slot with this id, taken out of staging or else of the buffer. */
    method Remove(id: SlotId) returns (found: bool)
      requires Valid()
      modifies this
      ensures Valid()
      ensures found == (id in Line(old(State())))
      ensures State() == AfterRemove(old(State()), id)
    {
      for i := 0 to |staging|
        invariant id !in staging[..i] && State() == old(State())
      {
        if staging[i] == id {
          WithoutFirst(staging, id, i);
          staging := staging[..i] + staging[i + 1..];
          return true;
        }
      }
      found := RemoveBuffered(id);
    }

    /** `remove` once staging is known not to hold the slot. */
    method RemoveBuffered(id: SlotId) returns (found: bool)
      requires Valid() && id !in staging
      modifies this`acceptBuf
      ensures Valid()
      ensures found == (id in old(acceptBuf)) && acceptBuf == Minus(old(acceptBuf), id)
    {
      for i := 0 to |acceptBuf|
        invariant id !in acceptBuf[..i] && acceptBuf == old(acceptBuf)
      {
        if acceptBuf[i] == id {
          WithoutFirst(acceptBuf, id, i);
          acceptBuf := acceptBuf[..i] + acceptBuf[i + 1..];
          return true;
        }
      }
      MinusAbsent(acceptBuf, id);
      return false;
    }

    method Close() returns (cleared: seq<SlotId>)
      modifies this
      ensures cleared == Line(old(State()))
      ensures State() == QueueState([], [], true)
    {
      closed := true;
      cleared := staging + acceptBuf;
      acceptBuf := [];
      staging := [];
    }
  }

  /** `pop_next` on a staged head: pop and flag it, then promote one slot if one fits. */
  lemma PopStagedHead(q: QueueState, slots: map<SlotId, Slot>, stagingMax: int)
    requires q.staging != []
    ensures Popped(q, stagingMax) == Some(q.staging[0])
    ensures var at := Flagged(slots, Some(q.staging[0]));
            var s := q.staging[1..];
            if q.buf != [] && |s| < stagingMax then
              && AfterPop(q, stagingMax) == q.(staging := s + [q.buf[0]], buf := q.buf[1..])
              && Flagged(AllStaged(slots, Promoted(q, stagingMax)), Some(q.staging[0])) == StageOne(at, q.buf[0])
            else
              && AfterPop(q, stagingMax) == q.(staging := s)
              && Flagged(AllStaged(slots, Promoted(q, stagingMax)), Some(q.staging[0])) == at
  {
    if q.buf != [] && |q.staging| - 1 < stagingMax {
      assert Promoted(q, stagingMax) == [q.buf[0]];
      assert AllStaged(slots, [q.buf[0]]) == StageOne(slots, q.buf[0]);
    } else {
      assert Promoted(q, stagingMax) == [];
    }
  }

  lemma FirstMatchIs(ids: seq<SlotId>, slots: map<SlotId, Slot>, threadId: string, modelTag: string, i: nat)
    requires i < |ids| && threadId != "" && Matches(slots, ids[i], threadId, modelTag)
    requires forall j :: 0 <= j < i ==> !Matches(slots, ids[j], threadId, modelTag)
    ensures FirstMatch(ids, slots, threadId, modelTag) == Some(i)
  {
  }
}
