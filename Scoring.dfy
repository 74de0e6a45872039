/** The `ai-scoring` view: a toggle that scores the dropped sounds one after
    the other. The `ai-sound` children are named by number; a child's
    `score()` call is recorded, and the settling of its promise is an event. */
module Scoring {
  import opened Wrappers

  /** `canStartScoring(files)`: truthy exactly when there is a file list and
      it is not empty. */
  function CanStartScoring<T>(files: Option<seq<T>>): (r: bool)
    ensures r <==> files.Some? && files.value != []
  {
    files.Some? && |files.value| != 0 && |files.value| > 0
  }

  /** `cannotStartScoring(files)`: disabled when the list is missing or empty. */
  function CannotStartScoring<T>(files: Option<seq<T>>): (r: bool)
    ensures r <==> files.None? || files.value == []
    ensures r != CanStartScoring(files)
  {
    !CanStartScoring(files)
  }

  const StopKey := "scoreStopScoring"
  const StartKey := "scoreStartScoring"

  /** `getScoringText`: the message key for the toggle's label. */
  function ScoringTextKey(scoring: bool): (key: string)
    ensures key == StopKey <==> scoring
    ensures key == StartKey <==> !scoring
  {
    if scoring then StopKey else StartKey
  }

  class AIScoring {
    var scoring: bool
    /** The array `_scoreFn` drains; while it is not empty its head is being
        scored. */
    var queue: seq<nat>
    /** Every `score()` call made on a child, in order. */
    var scoreCalls: seq<nat>
    /** The children captured when the current batch started. */
    ghost var batch: seq<nat>
    /** The number of `score()` calls made before the current batch. */
    ghost var callsBefore: nat

    /** The batch is scored in order: the calls of this batch are the settled
        children followed by the head; the queue is what remains of the batch;
        `scoring` is only ever true while the queue is not empty. */
    ghost predicate Valid()
      reads this
    {
      && callsBefore <= |scoreCalls|
      && |queue| <= |batch|
      && queue == batch[|batch| - |queue|..]
      && scoreCalls[callsBefore..] == batch[..|batch| - |queue| + (if queue == [] then 0 else 1)]
      && (scoring ==> queue != [])
    }

    constructor ()
      ensures Valid() && !scoring && queue == [] && scoreCalls == []
    {
      scoring := false;
      queue := [];
      scoreCalls := [];
      batch := [];
      callsBefore := 0;
    }

    /** `_onScore`, with the observer `_onScoringChanged` it triggers: flip
        `scoring`; when it becomes true, start draining `children`. Turning it
        off cancels nothing. */
    method OnScore(children: seq<nat>)
      requires Valid()
      requires scoring || queue == []
      modifies this
      ensures Valid()
      ensures old(scoring) ==> !scoring && queue == old(queue) && scoreCalls == old(scoreCalls)
      ensures !old(scoring) && children == [] ==> !scoring && queue == [] && scoreCalls == old(scoreCalls)
      ensures !old(scoring) && children != [] ==>
        && scoring && queue == children && scoreCalls == old(scoreCalls) + [children[0]]
        && batch == children
    {
      scoring := !scoring;
      if scoring {
        queue := children;
        batch := children;
        callsBefore := |scoreCalls|;
        ScoreHead();
      }
    }

    /** The promise of the head's `score()` has settled (it never rejects):
        drop exactly the head and go on with the next child, or clear
        `scoring` when none is left. */
    method OnScoreSettled()
      requires Valid() && queue != []
      modifies this`queue, this`scoreCalls, this`scoring
      ensures Valid()
      ensures queue == old(queue)[1..]
      ensures queue != [] ==> scoreCalls == old(scoreCalls) + [queue[0]] && scoring == old(scoring)
      ensures queue == [] ==> scoreCalls == old(scoreCalls) && !scoring
      ensures queue == [] ==> scoreCalls[callsBefore..] == batch
    {
      queue := queue[1..];
      ScoreHead();
    }

    /** `_scoreFn`: score the head of the queue, or end the batch. */
    method ScoreHead()
      requires callsBefore <= |scoreCalls| && |queue| <= |batch|
      requires queue == batch[|batch| - |queue|..]
      requires scoreCalls[callsBefore..] == batch[..|batch| - |queue|]
      modifies this`scoreCalls, this`scoring
      ensures Valid()
      ensures queue != [] ==> scoreCalls == old(scoreCalls) + [queue[0]] && scoring == old(scoring)
      ensures queue == [] ==> scoreCalls == old(scoreCalls) && !scoring
    {
      if |queue| > 0 {
        scoreCalls := scoreCalls + [queue[0]];
        assert batch[|batch| - |queue|] == queue[0];
        assert batch[..|batch| - |queue| + 1] == batch[..|batch| - |queue|] + [queue[0]];
      } else {
        scoring := false;
      }
    }
  }
}
