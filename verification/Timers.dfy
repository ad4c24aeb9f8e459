/** GraceTimer of queue.py, over a clock handed in as `now`. */
module Timers {
  import opened Wrappers

  datatype GraceState = GraceState(startedAt: Option<int>, threadId: string, modelTag: string, extensions: nat)

  const Stopped := GraceState(None, "", "", 0)

  /** The window of the last completed slot is open and belongs to this thread and model. */
  predicate GraceMatches(g: GraceState, graceSeconds: int, now: int, threadId: string, modelTag: string) {
    && g.startedAt.Some? && now - g.startedAt.value < graceSeconds
    && g.threadId == threadId && g.modelTag == modelTag
  }

  /** The timer after a follow-up restarts it, or unchanged once the extension cap is reached. */
  function Restarted(g: GraceState, maxExtensions: nat, now: int): GraceState {
    if g.extensions >= maxExtensions then g
    else g.(extensions := g.extensions + 1, startedAt := Some(now))
  }

  class GraceTimer {
    const graceSeconds: int
    const maxExtensions: nat
    var startedAt: Option<int>
    var threadId: string
    var modelTag: string
    var extensionCount: nat

    function State(): GraceState
      reads this
    {
      GraceState(startedAt, threadId, modelTag, extensionCount)
    }

    constructor (graceSeconds: int, maxExtensions: nat)
      ensures this.graceSeconds == graceSeconds && this.maxExtensions == maxExtensions && State() == Stopped
    {
      this.graceSeconds, this.maxExtensions := graceSeconds, maxExtensions;
      startedAt, threadId, modelTag, extensionCount := None, "", "", 0;
    }

    method Start(threadId: string, modelTag: string, now: int)
      modifies this
      ensures State() == GraceState(Some(now), threadId, modelTag, 0)
    {
      startedAt := Some(now);
      this.threadId := threadId;
      this.modelTag := modelTag;
      extensionCount := 0;
    }

    method RestartForFollowup(now: int) returns (ok: bool)
      modifies this`startedAt, this`extensionCount
      ensures State() == Restarted(old(State()), maxExtensions, now)
      ensures ok <==> old(extensionCount) < maxExtensions
    {
      if extensionCount >= maxExtensions {
        return false;
      }
      extensionCount := extensionCount + 1;
      startedAt := Some(now);
      return true;
    }

    function RemainingS(now: int): (r: int)
      reads this
      ensures r > 0 ==> startedAt.Some? && r == graceSeconds - (now - startedAt.value)
      ensures r == 0 <==> startedAt.None? || now - startedAt.value >= graceSeconds
    {
      if startedAt.None? then 0
      else if graceSeconds - (now - startedAt.value) > 0 then graceSeconds - (now - startedAt.value)
      else 0
    }

    predicate Expired(now: int)
      reads this
    {
      startedAt.None? || RemainingS(now) <= 0
    }

    /** `matches`, which asks the timer whether it has expired, is the window test. */
    method MatchesWindow(threadId: string, modelTag: string, now: int) returns (b: bool)
      ensures b == GraceMatches(State(), graceSeconds, now, threadId, modelTag)
    {
      b := startedAt.Some? && this.threadId == threadId && this.modelTag == modelTag && !Expired(now);
    }
  }
}
