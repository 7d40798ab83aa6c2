/**
 * `CandidateScorer.rank_candidates` (services/candidate_scorer.py): a stable
 * sort by total score, highest first, followed by 1-based rank numbers.
 * Python's `sorted(..., reverse=True)` is stable; it is specified here by an
 * insertion sort that keeps candidates with equal scores in input order.
 */
module Ranking {
  import opened Wrappers
  import opened CandidateScorer

  /** Scores never increase along the sequence. */
  predicate SortedDescending(xs: seq<ScoreResult>) {
    forall i, j :: 0 <= i < j < |xs| ==> xs[i].totalScore >= xs[j].totalScore
  }

  /** Puts `x` immediately before the first element scoring no more than it. */
  function Insert(x: ScoreResult, ys: seq<ScoreResult>): (r: seq<ScoreResult>)
    ensures |r| == |ys| + 1
    ensures multiset(r) == multiset(ys) + multiset{x}
  {
    if ys == [] || ys[0].totalScore <= x.totalScore then [x] + ys
    else
      assert ys == [ys[0]] + ys[1..];
      [ys[0]] + Insert(x, ys[1..])
  }

  /** The candidates sorted by score, highest first, ties in input order. */
  function SortByScore(xs: seq<ScoreResult>): (r: seq<ScoreResult>)
    ensures |r| == |xs|
  {
    if xs == [] then [] else Insert(xs[0], SortByScore(xs[1..]))
  }

  /** Inserting under a common upper bound keeps that bound. */
  lemma {:induction false} InsertBounded(x: ScoreResult, ys: seq<ScoreResult>, v: real)
    requires x.totalScore <= v
    requires forall k :: 0 <= k < |ys| ==> ys[k].totalScore <= v
    ensures forall k :: 0 <= k < |Insert(x, ys)| ==> Insert(x, ys)[k].totalScore <= v
  {
    if ys != [] && ys[0].totalScore > x.totalScore {
      InsertBounded(x, ys[1..], v);
    }
  }

  lemma {:induction false} InsertSorted(x: ScoreResult, ys: seq<ScoreResult>)
    requires SortedDescending(ys)
    ensures SortedDescending(Insert(x, ys))
  {
    if ys == [] || ys[0].totalScore <= x.totalScore {
    } else {
      InsertSorted(x, ys[1..]);
      var rest := Insert(x, ys[1..]);
      InsertBounded(x, ys[1..], ys[0].totalScore);
      var r := [ys[0]] + rest;
      assert Insert(x, ys) == r;
      forall i, j | 0 <= i < j < |r| ensures r[i].totalScore >= r[j].totalScore {
        assert r[j] == rest[j - 1];
        if i > 0 {
          assert r[i] == rest[i - 1];
        }
      }
    }
  }

  /** The result is sorted by score, highest first. */
  lemma {:induction false} SortByScoreSorted(xs: seq<ScoreResult>)
    ensures SortedDescending(SortByScore(xs))
  {
    if xs != [] {
      SortByScoreSorted(xs[1..]);
      InsertSorted(xs[0], SortByScore(xs[1..]));
    }
  }

  /** The result holds exactly the input candidates. */
  lemma {:induction false} SortByScorePermutes(xs: seq<ScoreResult>)
    ensures multiset(SortByScore(xs)) == multiset(xs)
  {
    if xs != [] {
      SortByScorePermutes(xs[1..]);
      assert xs == [xs[0]] + xs[1..];
    }
  }

  /** The candidates with score `v`, in order. */
  function WithScore(xs: seq<ScoreResult>, v: real): (r: seq<ScoreResult>)
    ensures |r| <= |xs|
    ensures forall k :: 0 <= k < |r| ==> r[k].totalScore == v
  {
    if xs == [] then []
    else (if xs[0].totalScore == v then [xs[0]] else []) + WithScore(xs[1..], v)
  }

  lemma {:induction false} WithScoreInsert(x: ScoreResult, ys: seq<ScoreResult>, v: real)
    requires SortedDescending(ys)
    ensures WithScore(Insert(x, ys), v) == (if x.totalScore == v then [x] else []) + WithScore(ys, v)
  {
    var r := Insert(x, ys);
    if ys == [] || ys[0].totalScore <= x.totalScore {
      assert r == [x] + ys;
      assert r[1..] == ys;
    } else {
      var tail := ys[1..];
      assert SortedDescending(tail) by {
        forall i, j | 0 <= i < j < |tail| ensures tail[i].totalScore >= tail[j].totalScore {
          assert tail[i] == ys[i + 1] && tail[j] == ys[j + 1];
        }
      }
      WithScoreInsert(x, tail, v);
      assert r == [ys[0]] + Insert(x, tail);
      assert r[1..] == Insert(x, tail);
      var head := if ys[0].totalScore == v then [ys[0]] else [];
      var mid := if x.totalScore == v then [x] else [];
      assert WithScore(r, v) == head + (mid + WithScore(tail, v));
      assert WithScore(ys, v) == head + WithScore(tail, v);
      if x.totalScore == v {
        assert head == [];
      } else {
        assert mid == [];
      }
    }
  }

  /** Stability: the candidates of each score keep their input order. */
  lemma {:induction false} SortByScoreStable(xs: seq<ScoreResult>, v: real)
    ensures WithScore(SortByScore(xs), v) == WithScore(xs, v)
  {
    if xs != [] {
      SortByScoreStable(xs[1..], v);
      SortByScoreSorted(xs[1..]);
      WithScoreInsert(xs[0], SortByScore(xs[1..]), v);
    }
  }

  /** The sorted candidates, each given its 1-based position as rank. */
  function Ranked(xs: seq<ScoreResult>): (r: seq<ScoreResult>)
    ensures |r| == |xs|
    ensures forall i :: 0 <= i < |r| ==> r[i].rank == Some(i + 1)
    ensures forall i :: 0 <= i < |r| ==> r[i] == SortByScore(xs)[i].(rank := Some(i + 1))
  {
    var sorted := SortByScore(xs);
    seq(|sorted|, i requires 0 <= i < |sorted| => sorted[i].(rank := Some(i + 1)))
  }

  /** Ranking does not change any score, so the ranked list is sorted too. */
  lemma RankedSorted(xs: seq<ScoreResult>)
    ensures SortedDescending(Ranked(xs))
  {
    SortByScoreSorted(xs);
  }

  method RankCandidates(scored: seq<ScoreResult>) returns (ranked: seq<ScoreResult>)
    ensures ranked == Ranked(scored)
  {
    ranked := SortByScore(scored);
    ghost var sorted := ranked;
    for i := 0 to |ranked|
      invariant |ranked| == |sorted|
      invariant forall k :: 0 <= k < i ==> ranked[k] == sorted[k].(rank := Some(k + 1))
      invariant forall k :: i <= k < |ranked| ==> ranked[k] == sorted[k]
    {
      ranked := ranked[i := ranked[i].(rank := Some(i + 1))];
    }
  }
}
