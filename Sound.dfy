/** The `ai-sound` widget: one sound, its classification request and the
    flags that show how that request went. The service call is an event
    (`OnReply`) carrying the reply; the waveform's duration arrives with it,
    or its absence when the waveform has not been created yet. */
module Sound {
  import opened Wrappers
  import opened Reducer
  import opened Segments

  /** One entry of the reply's `majority` array. */
  datatype Vote = Vote(className: string, confidence: real)

  /** One entry of the reply's `inspectResult` array. */
  datatype Inspection = Inspection(majority: seq<Vote>, detail: seq<Detection>)

  /** How the classification request settles: the service answered (its
      `inspectResult` may be absent) or answered with a null response, or
      the request was rejected (the response's `error_message` may be
      absent) or rejected with a null response. */
  datatype Reply =
    | Answered(inspectResult: Option<seq<Inspection>>)
    | NullAnswer
    | Rejected(errorMessage: Option<string>)
    | NullRejection

  /** The text the widget shows as `errorMessage`. */
  datatype Text = Literal(text: string) | Localized(key: string) | Undefined

  const NoResultKey := "soundNoResult"

  predicate HasResult(reply: Reply)
  {
    reply.Answered? && reply.inspectResult.Some? && |reply.inspectResult.value| > 0
  }

  function FirstInspection(reply: Reply): Inspection
    requires HasResult(reply)
  {
    reply.inspectResult.value[0]
  }

  /** The entry a stable sort by descending confidence puts first. */
  function TopVote(votes: seq<Vote>): Vote
    requires votes != []
  {
    if |votes| == 1 then votes[0]
    else
      var rest := TopVote(votes[1..]);
      if rest.confidence > votes[0].confidence then rest else votes[0]
  }

  /** `votes[m]` has the highest confidence and is the earliest such entry. */
  predicate IsFirstMaxVote(votes: seq<Vote>, m: int)
  {
    && 0 <= m < |votes|
    && (forall j :: 0 <= j < |votes| ==> votes[j].confidence <= votes[m].confidence)
    && (forall j :: 0 <= j < m ==> votes[j].confidence < votes[m].confidence)
  }

  /** The overall label is the most confident `majority` entry, the earliest
      one on a tie, as the head of a stable descending sort is. */
  lemma {:induction false} TopVoteIsFirstMax(votes: seq<Vote>)
    requires votes != []
    ensures exists m :: IsFirstMaxVote(votes, m) && votes[m] == TopVote(votes)
  {
    if |votes| == 1 {
      assert IsFirstMaxVote(votes, 0);
    } else {
      var rest := votes[1..];
      TopVoteIsFirstMax(rest);
      var m :| IsFirstMaxVote(rest, m) && rest[m] == TopVote(rest);
      assert forall j :: 0 <= j < |rest| ==> rest[j] == votes[j + 1];
      if TopVote(rest).confidence > votes[0].confidence {
        assert IsFirstMaxVote(votes, m + 1);
      } else {
        assert IsFirstMaxVote(votes, 0);
      }
    }
  }

  /** The reply's `detail` array handed to `_processResultArray`, which
      empties it and returns its reduction. */
  method ReduceDetail(detail: seq<Detection>) returns (reduced: seq<Detection>)
    ensures reduced == Reduce(detail)
  {
    var consumed := new DetectionArray(detail);
    reduced := ProcessResultArray(consumed);
  }

  class AISound {
    var item: nat
    var autoScore: bool
    var scoring: bool
    var scored: bool
    var errored: bool
    var errorMessage: Text
    var detectedClasses: seq<Segment>
    var scoredConfidence: Option<real>
    var scoredProductType: Option<string>
    /** `_promise`: the promise of the latest `score()` that issued a request. */
    var promise: Option<nat>
    /** The item sent by each classification request; request `k` belongs
        to promise `k`. */
    var requests: seq<nat>
    /** Promises whose request has not been answered yet. */
    var pending: set<nat>
    /** Promises resolved so far, in order. */
    var resolved: seq<nat>

    ghost predicate Valid()
      reads this
    {
      && (scoring ==> promise.Some?)
      && (promise.Some? ==> promise.value < |requests|)
      && !(scored && errored)
      && (forall p :: p in pending ==> p < |requests| && p !in resolved)
      && (forall k :: 0 <= k < |resolved| ==> resolved[k] < |requests|)
      && (forall j, k :: 0 <= j < k < |resolved| ==> resolved[j] != resolved[k])
    }

    /** A new widget, after its first `item` has been set. */
    constructor (item: nat, autoScore: bool)
      ensures Valid()
      ensures this.item == item && this.autoScore == autoScore
      ensures !scoring && !scored && !errored && detectedClasses == []
      ensures errorMessage == Literal("") && scoredConfidence == None && scoredProductType == None
      ensures promise == None && requests == [] && pending == {} && resolved == []
    {
      this.item := item;
      this.autoScore := autoScore;
      scoring, scored, errored := false, false, false;
      errorMessage := Literal("");
      detectedClasses := [];
      scoredConfidence, scoredProductType := None, None;
      promise := None;
      requests, pending, resolved := [], {}, [];
    }

    /** `score()`: while a request is in flight, hand back its promise and do
        nothing else; otherwise clear the result flags and send one request. */
    method Score() returns (p: nat, issued: bool)
      requires Valid()
      modifies this
      ensures Valid()
      ensures issued == !old(scoring)
      ensures old(scoring) ==> p == old(promise).value && unchanged(this)
      ensures !old(scoring) ==>
        && scoring && !scored && !errored && detectedClasses == []
        && p == |old(requests)| && promise == Some(p)
        && requests == old(requests) + [item] && pending == old(pending) + {p}
        && resolved == old(resolved) && item == old(item) && autoScore == old(autoScore)
        && errorMessage == old(errorMessage)
        && scoredConfidence == old(scoredConfidence) && scoredProductType == old(scoredProductType)
    {
      if scoring {
        p, issued := promise.value, false;
        return;
      }
      scoring := true;
      scored := false;
      errored := false;
      detectedClasses := [];
      p := |requests|;
      requests := requests + [item];
      pending := pending + {p};
      promise := Some(p);
      issued := true;
    }

    /** The request of promise `p` settles with `reply`; `total` is what the
        waveform's `getDuration()` returns at that moment, `None` when no
        waveform exists yet and the call throws. */
    method OnReply(p: nat, reply: Reply, total: Option<real>)
      requires Valid() && p in pending
      modifies this
      ensures Valid()
      ensures pending == old(pending) - {p}
      ensures item == old(item) && autoScore == old(autoScore)
      ensures requests == old(requests) && promise == old(promise)
      // a rejected request: error flags and the service's message
      ensures reply.Rejected? ==>
        && errored && !scored && !scoring && resolved == old(resolved) + [p]
        && errorMessage == (if reply.errorMessage.Some? then Literal(reply.errorMessage.value) else Undefined)
        && detectedClasses == old(detectedClasses)
        && scoredConfidence == old(scoredConfidence) && scoredProductType == old(scoredProductType)
      // an answer without results
      ensures reply.Answered? && !HasResult(reply) ==>
        && errored && !scored && !scoring && resolved == old(resolved) + [p]
        && errorMessage == Localized(NoResultKey) && detectedClasses == []
        && scoredConfidence == old(scoredConfidence) && scoredProductType == old(scoredProductType)
      // a rejection with a null response: the flags are set and the promise
      // resolved before reading the message throws
      ensures reply.NullRejection? ==>
        && errored && !scored && !scoring && resolved == old(resolved) + [p]
        && errorMessage == old(errorMessage) && detectedClasses == old(detectedClasses)
        && scoredConfidence == old(scoredConfidence) && scoredProductType == old(scoredProductType)
      // an answer with a null response: reading it throws before any change
      ensures reply.NullAnswer? ==>
        && scored == old(scored) && errored == old(errored) && scoring == old(scoring)
        && resolved == old(resolved) && errorMessage == old(errorMessage)
        && detectedClasses == old(detectedClasses)
        && scoredConfidence == old(scoredConfidence) && scoredProductType == old(scoredProductType)
      // an answer with results: the label, and the segments of the reduced detections
      ensures HasResult(reply) && FirstInspection(reply).majority != [] ==>
        && scored && !errored && errorMessage == old(errorMessage)
        && scoredConfidence == Some(TopVote(FirstInspection(reply).majority).confidence)
        && scoredProductType == Some(TopVote(FirstInspection(reply).majority).className)
      ensures HasResult(reply) && FirstInspection(reply).majority != [] && total.Some? ==>
        && !scoring && resolved == old(resolved) + [p]
        && detectedClasses == SegmentsOf(Reduce(FirstInspection(reply).detail), total.value)
      // ... but without a waveform `getDuration()` throws after the label is
      // set: no segments, and the promise is never resolved
      ensures HasResult(reply) && FirstInspection(reply).majority != [] && total.None? ==>
        && scoring == old(scoring) && resolved == old(resolved)
        && detectedClasses == old(detectedClasses)
      // an answer with an empty `majority`: the handler throws half-way and
      // the promise is never resolved
      ensures HasResult(reply) && FirstInspection(reply).majority == [] ==>
        && scored && !errored && scoring == old(scoring) && resolved == old(resolved)
        && detectedClasses == old(detectedClasses) && errorMessage == old(errorMessage)
        && scoredConfidence == old(scoredConfidence) && scoredProductType == old(scoredProductType)
    {
      match reply
      case Rejected(message) =>
        Fail(p, if message.Some? then Literal(message.value) else Undefined, false);
      case NullRejection =>
        Fail(p, errorMessage, false);
      case NullAnswer =>
        Settle(p, false);
      case Answered(inspectResult) =>
        if inspectResult.Some? && |inspectResult.value| > 0 {
          var inspection := inspectResult.value[0];
          if inspection.majority != [] {
            errored, scored := false, true;
            ShowResult(p, inspection, total);
          } else {
            Stall(p);
          }
        } else {
          Fail(p, Localized(NoResultKey), true);
        }
    }

    /** An error outcome: the promise resolves with the error flags set and
        `message` shown; `clear` says whether the detections are cleared. */
    method Fail(p: nat, message: Text, clear: bool)
      requires Valid() && p in pending
      modifies this
      ensures Valid()
      ensures pending == old(pending) - {p} && resolved == old(resolved) + [p]
      ensures errored && !scored && !scoring && errorMessage == message
      ensures detectedClasses == if clear then [] else old(detectedClasses)
      ensures item == old(item) && autoScore == old(autoScore)
      ensures requests == old(requests) && promise == old(promise)
      ensures scoredConfidence == old(scoredConfidence) && scoredProductType == old(scoredProductType)
    {
      Settle(p, true);
      errorMessage := message;
      errored := true;
      scored := false;
      if clear {
        detectedClasses := [];
      }
      scoring := false;
    }

    /** A result whose `majority` is empty: `scored` is set, then reading
        the head of the sorted `majority` throws, so nothing after it runs
        and the promise never resolves. */
    method Stall(p: nat)
      requires Valid() && p in pending
      modifies this
      ensures Valid()
      ensures pending == old(pending) - {p} && resolved == old(resolved)
      ensures scored && !errored && scoring == old(scoring)
      ensures detectedClasses == old(detectedClasses) && errorMessage == old(errorMessage)
      ensures item == old(item) && autoScore == old(autoScore)
      ensures requests == old(requests) && promise == old(promise)
      ensures scoredConfidence == old(scoredConfidence) && scoredProductType == old(scoredProductType)
    {
      errored := false;
      scored := true;
      Settle(p, false);
    }

    /** The answer for promise `p` has arrived; `resolve` says whether the
        handler reaches its `resolve()`. */
    method Settle(p: nat, resolve: bool)
      requires Valid() && p in pending
      modifies this`pending, this`resolved
      ensures Valid()
      ensures pending == old(pending) - {p}
      ensures resolved == old(resolved) + (if resolve then [p] else [])
    {
      pending := pending - {p};
      if resolve {
        resolved := resolved + [p];
      }
    }

    /** The success branch with a non-empty `majority`: the label from its
        head after the sort, the segments from the reduced `detail` once the
        waveform's duration is known; without a waveform the handler throws
        there and resolves nothing. */
    method ShowResult(p: nat, inspection: Inspection, total: Option<real>)
      requires Valid() && p in pending && inspection.majority != [] && !errored
      modifies this`scoredConfidence, this`scoredProductType, this`detectedClasses
      modifies this`scoring, this`pending, this`resolved
      ensures Valid()
      ensures pending == old(pending) - {p}
      ensures scored == old(scored) && errored == old(errored)
      ensures scoredConfidence == Some(TopVote(inspection.majority).confidence)
      ensures scoredProductType == Some(TopVote(inspection.majority).className)
      ensures total.Some? ==>
        && !scoring && resolved == old(resolved) + [p]
        && detectedClasses == SegmentsOf(Reduce(inspection.detail), total.value)
      ensures total.None? ==>
        && scoring == old(scoring) && resolved == old(resolved)
        && detectedClasses == old(detectedClasses)
      ensures item == old(item) && autoScore == old(autoScore) && errorMessage == old(errorMessage)
      ensures requests == old(requests) && promise == old(promise)
    {
      var majority := TopVote(inspection.majority);
      scoredConfidence := Some(majority.confidence);
      scoredProductType := Some(majority.className);
      var reduced := ReduceDetail(inspection.detail);
      if total.None? {
        Settle(p, false);
        return;
      }
      var detections := BuildSegments(reduced, total.value);
      detectedClasses := detections;
      scoring := false;
      Settle(p, true);
    }

    /** `_itemChanged`: a new item clears the result and the in-flight flag
        and sends nothing. */
    method ItemChanged(newItem: nat)
      requires Valid()
      modifies this
      ensures Valid()
      ensures item == newItem && detectedClasses == []
      ensures !scored && !errored && !scoring
      ensures requests == old(requests) && pending == old(pending) && resolved == old(resolved)
      ensures promise == old(promise) && errorMessage == old(errorMessage) && autoScore == old(autoScore)
      ensures scoredConfidence == old(scoredConfidence) && scoredProductType == old(scoredProductType)
    {
      item := newItem;
      detectedClasses := [];
      scored := false;
      errored := false;
      scoring := false;
    }

    /** `ready`: scores at once only when `autoScore` is set. */
    method Ready()
      requires Valid()
      modifies this
      ensures Valid()
      // without `auto-score`, or with a request already in flight, nothing changes
      ensures !autoScore || old(scoring) ==> unchanged(this)
      // with `auto-score`, one request for the current item, as `score()` sends it
      ensures autoScore && !old(scoring) ==>
        && scoring && !scored && !errored && detectedClasses == []
        && promise == Some(|old(requests)|)
        && requests == old(requests) + [old(item)] && pending == old(pending) + {|old(requests)|}
        && resolved == old(resolved) && item == old(item) && autoScore == old(autoScore)
        && errorMessage == old(errorMessage)
        && scoredConfidence == old(scoredConfidence) && scoredProductType == old(scoredProductType)
    {
      if autoScore {
        var p, issued := Score();
      }
    }
  }
  /** Two `auto-score` widgets for the same item receive the same non-empty
      answer, the first once its waveform exists, the second before. The
      first resolves with the segments; the second keeps `scoring` set, so a
      later `score()` hands back the stalled promise and sends nothing. */
  method AutoScoreLifecycle(item: nat, inspection: Inspection, total: real)
    returns (sent: seq<nat>, shown: seq<Segment>, resolvedFirst: seq<nat>,
             resolvedSecond: seq<nat>, again: nat, reissued: bool)
    requires inspection.majority != []
    ensures sent == [item]
    ensures resolvedFirst == [0] && shown == SegmentsOf(Reduce(inspection.detail), total)
    ensures resolvedSecond == [] && again == 0 && !reissued
  {
    var reply := Answered(Some([inspection]));
    var first := new AISound(item, true);
    first.Ready();
    sent := first.requests;
    first.OnReply(0, reply, Some(total));
    shown, resolvedFirst := first.detectedClasses, first.resolved;

    var second := new AISound(item, true);
    second.Ready();
    second.OnReply(0, reply, None);
    resolvedSecond := second.resolved;
    again, reissued := second.Score();
  }
}
