/** Slot records (slot.py). A slot object of the source is named by its id here; whoever holds the id
    shares the record in the table, as whoever holds the object shares it in the source. */
module Slots {
  import opened Wrappers
  import opened Fsm

  type SlotId = nat
  type Pid = nat

  /** How a completion future was settled. `ClientGone` is the cancellation `wait_for` makes on timeout. */
  datatype Verdict = Answered | Failed(why: string) | ClientGone

  datatype Future = NoFuture | Pending | Done(verdict: Verdict)

  /** `trail` records the states left behind, oldest first; it is bookkeeping, never read by a step. */
  datatype Slot = Slot(
    modelTag: string, threadId: string, keepAlive: Option<int>,
    state: SlotState, trail: seq<SlotState>,
    pid: Option<Pid>, extensions: nat, future: Future, disconnected: bool, evicted: bool)

  function NewSlot(modelTag: string, threadId: string, keepAlive: Option<int>, wait: bool): Slot {
    Slot(modelTag, threadId, keepAlive, RECEIVED, [], None, 0, if wait then Pending else NoFuture, false, false)
  }

  /** The slot after its state field is written. */
  function Moved(s: Slot, to: SlotState): Slot {
    s.(trail := s.trail + [s.state], state := to)
  }

  /** `_fail_completion_future` and the guarded `set_result`: a future is settled only while pending. */
  function Settled(s: Slot, verdict: Verdict): Slot {
    if s.future == Pending then s.(future := Done(verdict)) else s
  }

  /** The slot started in RECEIVED and every state write since was a legal transition. */
  ghost predicate LegalHistory(s: Slot) {
    && (s.trail + [s.state])[0] == RECEIVED
    && LegalPath(s.trail + [s.state])
  }

  /** The state in which the slot was let into the queue, the second of its history. */
  function LetInAs(s: Slot): SlotState {
    if |s.trail| < 2 then s.state else s.trail[1]
  }

  /** A legal history has ACCEPT_BUFFER only there. */
  lemma BufferedIsSecond(s: Slot)
    requires LegalHistory(s) && s.trail != []
    ensures ACCEPT_BUFFER in s.trail + [s.state] <==> LetInAs(s) == ACCEPT_BUFFER
    ensures LetInAs(s) == ACCEPT_BUFFER || LetInAs(s) == STAGED
  {
    var h := s.trail + [s.state];
    assert LetInAs(s) == h[1] && Legal(h[0], h[1]);
    forall i | 1 <= i < |h| ensures h[i] != RECEIVED && (i > 1 ==> h[i] != ACCEPT_BUFFER) {
      assert Legal(h[i - 1], h[i]);
      assert i > 1 ==> Legal(h[i - 2], h[i - 1]);
    }
  }

  lemma MovedKeepsLegalHistory(s: Slot, to: SlotState)
    requires LegalHistory(s) && Legal(s.state, to)
    ensures LegalHistory(Moved(s, to))
  {
    var before, after := s.trail + [s.state], s.trail + [s.state] + [to];
    forall i | 0 <= i < |after| - 1 ensures Legal(after[i], after[i + 1]) {
      if i < |before| - 1 {
        assert Legal(before[i], before[i + 1]);
      }
    }
  }

  /** The heap of slot objects. */
  class SlotTable {
    var at: map<SlotId, Slot>

    constructor ()
      ensures at == map[]
    {
      at := map[];
    }
  }
}
