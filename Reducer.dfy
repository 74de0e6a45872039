/** The detection reducer of the sound widget: a streaming pass over the
    classifier's per-time detections that keeps, for every run of
    consecutive detections sharing a `time`, the one with the highest
    confidence (the earliest on a tie). */
module Reducer {

  /** One entry of the service's `detail` array. */
  datatype Detection = Detection(time: real, className: string, confidence: real)

  function Last<T>(s: seq<T>): T
    requires s != []
  {
    s[|s| - 1]
  }

  function DropLast<T>(s: seq<T>): seq<T>
    requires s != []
  {
    s[..|s| - 1]
  }

  // ---------------------------------------------------------------------------
  // The streaming reduction, as a function of the input prefix consumed so far
  // ---------------------------------------------------------------------------

  /** One iteration of the reduction loop: the next detection is compared with
      the last kept entry only. */
  function Step(res: seq<Detection>, d: Detection): seq<Detection>
  {
    if res == [] || d.time != Last(res).time then res + [d]
    else if d.confidence > Last(res).confidence then DropLast(res) + [d]
    else res
  }

  /** What the reduction has kept after consuming the whole of `s`. */
  function Reduce(s: seq<Detection>): seq<Detection>
  {
    if s == [] then [] else Step(Reduce(DropLast(s)), Last(s))
  }

  // ---------------------------------------------------------------------------
  // The reference: maximal runs of equal time, and the best entry of a run
  // ---------------------------------------------------------------------------

  /** `s` cut into maximal runs of consecutive detections with equal `time`. */
  function Group(s: seq<Detection>): seq<seq<Detection>>
  {
    if s == [] then []
    else
      var g: seq<seq<Detection>> := Group(DropLast(s));
      if |s| > 1 && s[|s| - 2].time == Last(s).time && g != [] then
        DropLast(g) + [Last(g) + [Last(s)]]
      else
        g + [[Last(s)]]
  }

  function Flatten<T>(g: seq<seq<T>>): seq<T>
  {
    if g == [] then [] else Flatten(DropLast(g)) + Last(g)
  }

  /** Every detection of `run` has the same time. */
  predicate SameTime(run: seq<Detection>)
  {
    forall j :: 0 <= j < |run| ==> run[j].time == run[0].time
  }

  /** Neighbouring runs of `g` are non-empty and start with different times. */
  ghost predicate RunsDiffer(g: seq<seq<Detection>>)
  {
    forall j, k :: 0 <= j < |g| && 0 <= k < |g| && j + 1 == k ==> g[j] != [] && g[k] != [] && g[j][0].time != g[k][0].time
  }

  /** The entry a strict `>` scan keeps from a non-empty run. */
  function BestOf(run: seq<Detection>): Detection
    requires run != []
  {
    if |run| == 1 then run[0]
    else
      var b := BestOf(DropLast(run));
      if Last(run).confidence > b.confidence then Last(run) else b
  }

  predicate NonEmptyRuns(g: seq<seq<Detection>>)
  {
    forall k :: 0 <= k < |g| ==> g[k] != []
  }

  /** The best entry of every run, in order. */
  function MapBest(g: seq<seq<Detection>>): (r: seq<Detection>)
    requires NonEmptyRuns(g)
    ensures |r| == |g|
  {
    if g == [] then [] else MapBest(DropLast(g)) + [BestOf(Last(g))]
  }

  /** `run[m]` has the highest confidence of `run`, and every entry before it
      has a strictly lower one: it is the earliest of the maximal entries. */
  predicate IsFirstMax(run: seq<Detection>, m: int)
  {
    && 0 <= m < |run|
    && (forall j :: 0 <= j < |run| ==> run[j].confidence <= run[m].confidence)
    && (forall j :: 0 <= j < m ==> run[j].confidence < run[m].confidence)
  }

  /** `a` can be obtained from `b` by deleting entries: `idx` gives, in
      increasing order, the position in `b` of every entry of `a`. */
  ghost predicate Embeds<T>(a: seq<T>, b: seq<T>, idx: seq<int>)
  {
    && |idx| == |a|
    && (forall k :: 0 <= k < |idx| ==> 0 <= idx[k] < |b| && a[k] == b[idx[k]])
    && (forall k, l :: 0 <= k < l < |idx| ==> idx[k] < idx[l])
  }

  ghost predicate IsSubsequence<T>(a: seq<T>, b: seq<T>)
  {
    exists idx :: Embeds(a, b, idx)
  }

  // ---------------------------------------------------------------------------
  // Lemmas
  // ---------------------------------------------------------------------------

  /** Every run is non-empty and has one time, and the last run ends with
      the last detection. */
  lemma {:induction false} GroupRunsUniform(s: seq<Detection>)
    ensures forall k :: 0 <= k < |Group(s)| ==> Group(s)[k] != [] && SameTime(Group(s)[k])
    ensures s != [] ==> Group(s) != [] && Last(Last(Group(s))) == Last(s)
  {
    if s != [] {
      var p := DropLast(s);
      var d := Last(s);
      GroupRunsUniform(p);
      var g: seq<seq<Detection>> := Group(p);
      if |s| > 1 && s[|s| - 2].time == d.time && g != [] {
        var run: seq<Detection> := Last(g) + [d];
        assert Group(s) == DropLast(g) + [run];
        assert Last(Last(g)) == s[|s| - 2];
        assert SameTime(Last(g));
        assert SameTime(run) by {
          assert forall j :: 0 <= j < |Last(g)| ==> run[j] == Last(g)[j];
        }
        assert forall k :: 0 <= k < |g| - 1 ==> Group(s)[k] == g[k];
      } else {
        assert Group(s) == g + [[d]];
        assert forall k :: 0 <= k < |g| ==> Group(s)[k] == g[k];
      }
    }
  }

  /** Two neighbouring runs have different times. */
  lemma {:induction false} GroupRunsDiffer(s: seq<Detection>)
    ensures RunsDiffer(Group(s))
  {
    GroupRunsUniform(s);
    if s != [] {
      var p := DropLast(s);
      var d := Last(s);
      GroupRunsDiffer(p);
      GroupRunsUniform(p);
      var g: seq<seq<Detection>> := Group(p);
      if |s| > 1 && s[|s| - 2].time == d.time && g != [] {
        var run: seq<Detection> := Last(g) + [d];
        assert Group(s) == DropLast(g) + [run];
        assert run[0] == Last(g)[0];
        assert forall k :: 0 <= k < |g| - 1 ==> Group(s)[k] == g[k];
      } else {
        assert Group(s) == g + [[d]];
        assert forall k :: 0 <= k < |g| ==> Group(s)[k] == g[k];
        if g != [] {
          assert |s| > 1 && s[|s| - 2] == Last(p);
          assert SameTime(Last(g));
          assert Last(g)[|Last(g)| - 1] == Last(p);
        }
      }
    }
  }

  /** The runs, concatenated, are exactly the input. */
  lemma {:induction false} GroupFlattens(s: seq<Detection>)
    ensures Flatten(Group(s)) == s
  {
    if s != [] {
      var p := DropLast(s);
      var d := Last(s);
      GroupFlattens(p);
      var g: seq<seq<Detection>> := Group(p);
      assert s == p + [d];
      if |s| > 1 && s[|s| - 2].time == d.time && g != [] {
        var run: seq<Detection> := Last(g) + [d];
        var g': seq<seq<Detection>> := DropLast(g) + [run];
        assert Group(s) == g';
        assert DropLast(g') == DropLast(g);
        assert Flatten(g) == Flatten(DropLast(g)) + Last(g);
        assert Flatten(g') == Flatten(DropLast(g)) + run;
      } else {
        var g': seq<seq<Detection>> := g + [[d]];
        assert Group(s) == g';
        assert DropLast(g') == g;
      }
    }
  }

  /** The runs of `s` are its maximal runs of equal time: non-empty, each of
      one time, neighbours of different times, and together exactly `s`. */
  lemma GroupIsMaximalRuns(s: seq<Detection>)
    ensures Flatten(Group(s)) == s
    ensures forall k :: 0 <= k < |Group(s)| ==> Group(s)[k] != [] && SameTime(Group(s)[k])
    ensures RunsDiffer(Group(s))
  {
    GroupFlattens(s);
    GroupRunsUniform(s);
    GroupRunsDiffer(s);
  }

  /** The entry kept from a run is its earliest maximal-confidence entry. */
  lemma {:induction false} BestOfIsFirstMax(run: seq<Detection>)
    requires run != []
    ensures exists m :: IsFirstMax(run, m) && run[m] == BestOf(run)
  {
    if |run| == 1 {
      assert IsFirstMax(run, 0);
    } else {
      var p := DropLast(run);
      BestOfIsFirstMax(p);
      var m :| IsFirstMax(p, m) && p[m] == BestOf(p);
      var b := BestOf(p);
      assert BestOf(run) == if Last(run).confidence > b.confidence then Last(run) else b;
      assert forall j :: 0 <= j < |p| ==> p[j] == run[j];
      if Last(run).confidence > b.confidence {
        assert IsFirstMax(run, |run| - 1);
      } else {
        assert IsFirstMax(run, m);
      }
    }
  }

  lemma {:induction false} MapBestAt(g: seq<seq<Detection>>, k: int)
    requires NonEmptyRuns(g) && 0 <= k < |g|
    ensures |MapBest(g)| == |g| && MapBest(g)[k] == BestOf(g[k])
  {
    if k < |g| - 1 {
      MapBestAt(DropLast(g), k);
    } else if |g| > 1 {
      MapBestAt(DropLast(g), 0);
    }
  }

  /** The entry kept from a run of one time has that time. */
  lemma BestOfTime(run: seq<Detection>)
    requires run != [] && SameTime(run)
    ensures BestOf(run).time == run[0].time
  {
    BestOfIsFirstMax(run);
  }

  /** The streaming reduction keeps exactly the best entry of every maximal
      run, one per run, in order. */
  lemma {:induction false} ReduceIsBestOfEachRun(s: seq<Detection>)
    ensures NonEmptyRuns(Group(s))
    ensures Reduce(s) == MapBest(Group(s))
  {
    GroupRunsUniform(s);
    if s != [] {
      var p := DropLast(s);
      var d := Last(s);
      ReduceIsBestOfEachRun(p);
      GroupRunsUniform(p);
      var g: seq<seq<Detection>> := Group(p);
      var r := Reduce(p);
      assert Reduce(s) == Step(r, d);
      if p != [] {
        var lastRun: seq<Detection> := Last(g);
        BestOfTime(lastRun);
        assert Last(r) == BestOf(lastRun);
        assert lastRun[|lastRun| - 1] == Last(p) == s[|s| - 2];
        if Last(p).time == d.time {
          var run := lastRun + [d];
          assert DropLast(run) == lastRun;
          var g': seq<seq<Detection>> := DropLast(g) + [run];
          assert Group(s) == g';
          assert DropLast(g') == DropLast(g);
          assert DropLast(r) == MapBest(DropLast(g));
        } else {
          assert Group(s) == g + [[d]];
          assert DropLast(g + [[d]]) == g;
        }
      }
    }
  }

  /** Entry `k` of the reduction is the best entry of run `k`. */
  lemma KeptEntryIsBestOfRun(s: seq<Detection>, k: int)
    requires 0 <= k < |Group(s)|
    ensures |Reduce(s)| == |Group(s)|
    ensures Group(s)[k] != [] && SameTime(Group(s)[k])
    ensures Reduce(s)[k] == BestOf(Group(s)[k])
  {
    ReduceIsBestOfEachRun(s);
    GroupRunsUniform(s);
    MapBestAt(Group(s), k);
  }

  /** No two neighbouring kept entries share a time. */
  lemma NoAdjacentEqualTimes(s: seq<Detection>)
    ensures forall j, k :: 0 <= j && j + 1 == k < |Reduce(s)| ==> Reduce(s)[j].time != Reduce(s)[k].time
  {
    ReduceIsBestOfEachRun(s);
    GroupRunsDiffer(s);
    var g := Group(s);
    forall j, k | 0 <= j && j + 1 == k < |Reduce(s)|
      ensures Reduce(s)[j].time != Reduce(s)[k].time
    {
      KeptEntryIsBestOfRun(s, j);
      KeptEntryIsBestOfRun(s, k);
      BestOfTime(g[j]);
      BestOfTime(g[k]);
    }
  }

  /** Every kept entry is the earliest maximal-confidence entry of its run;
      there is one kept entry per run. */
  lemma KeptEntryIsFirstMaxOfRun(s: seq<Detection>, k: int)
    requires 0 <= k < |Group(s)|
    ensures |Reduce(s)| == |Group(s)|
    ensures exists m :: IsFirstMax(Group(s)[k], m) && Reduce(s)[k] == Group(s)[k][m]
  {
    KeptEntryIsBestOfRun(s, k);
    BestOfIsFirstMax(Group(s)[k]);
  }

  /** The reduction only deletes entries: its output is a subsequence of its
      input, in the input's order. */
  lemma {:induction false} ReduceIsSubsequence(s: seq<Detection>)
    ensures IsSubsequence(Reduce(s), s)
  {
    if s == [] {
      assert Embeds(Reduce(s), s, []);
    } else {
      var p := DropLast(s);
      var d := Last(s);
      var r := Reduce(p);
      ReduceIsSubsequence(p);
      var idx :| Embeds(r, p, idx);
      assert s == p + [d];
      assert forall k :: 0 <= k < |idx| ==> s[idx[k]] == p[idx[k]];
      if r == [] || d.time != Last(r).time {
        assert Embeds(r + [d], s, idx + [|p|]);
      } else if d.confidence > Last(r).confidence {
        assert Embeds(DropLast(r) + [d], s, DropLast(idx) + [|p|]);
      } else {
        assert Embeds(r, s, idx);
      }
    }
  }

  /** The output is empty exactly when the input is, and never longer. */
  lemma {:induction false} ReduceEmptyIffEmpty(s: seq<Detection>)
    ensures Reduce(s) == [] <==> s == []
    ensures |Reduce(s)| <= |s|
  {
    if s != [] {
      ReduceEmptyIffEmpty(DropLast(s));
    }
  }

  /** A kept entry for every change of time: equal times that a different
      time separates are two runs, not merged (streaming, not global grouping). */
  lemma SeparatedEqualTimesNotMerged(a: Detection, b: Detection, c: Detection)
    requires a.time == c.time && a.time != b.time
    ensures Reduce([a, b, c]) == [a, b, c]
  {
    assert DropLast([a]) == [];
    assert Reduce([a]) == [a];
    assert DropLast([a, b]) == [a];
    assert Reduce([a, b]) == [a, b];
    assert DropLast([a, b, c]) == [a, b];
  }

  /** Of two neighbours with one time the more confident is kept, and a
      following detection with another time is appended. */
  lemma HigherConfidenceDuplicateWins(a: Detection, b: Detection, c: Detection)
    requires a.time == b.time && b.time != c.time
    requires b.confidence > a.confidence
    ensures Reduce([a, b, c]) == [b, c]
  {
    assert DropLast([a]) == [];
    assert Reduce([a]) == [a];
    assert DropLast([a, b]) == [a];
    assert Reduce([a, b]) == [b];
    assert DropLast([a, b, c]) == [a, b];
  }

  // ---------------------------------------------------------------------------
  // The source's form: a loop that drains its argument array with splice(0, 1)
  // ---------------------------------------------------------------------------

  /** The JavaScript array handed to the reduction; the reduction consumes it. */
  class DetectionArray {
    var elems: seq<Detection>

    constructor (elems: seq<Detection>)
      ensures this.elems == elems
    {
      this.elems := elems;
    }
  }

  /** `_processResultArray`: returns the reduction of the array's contents
      and leaves the array empty. */
  method ProcessResultArray(detail: DetectionArray) returns (res: seq<Detection>)
    modifies detail
    ensures detail.elems == []
    ensures res == Reduce(old(detail.elems))
  {
    ghost var input := detail.elems;
    ghost var i := 0;
    res := [];
    while |detail.elems| > 0
      invariant 0 <= i <= |input|
      invariant detail.elems == input[i..]
      invariant res == Reduce(input[..i])
      decreases |detail.elems|
    {
      var tmp := detail.elems[0];
      detail.elems := detail.elems[1..];
      if |res| == 0 {
        res := res + [tmp];
      } else {
        if tmp.time != res[|res| - 1].time {
          res := res + [tmp];
        } else {
          if tmp.confidence > res[|res| - 1].confidence {
            res := res[..|res| - 1];
            res := res + [tmp];
          }
        }
      }
      assert DropLast(input[..i + 1]) == input[..i];
      i := i + 1;
    }
    assert input[..i] == input;
  }
}
