/** components/leaderboard-simple.tsx: the ranking. Every stored prediction is scored
    live against the official results and the scored list is sorted by score,
    highest first; equal scores keep their stored order, as the engine's sort is
    stable. */
module LeaderboardSimple {
  import opened Types
  import opened PredictionAnalysis

  /** A prediction with the score computed for it; the stored `score` is not used. */
  datatype Scored = Scored(prediction: Prediction, calculatedScore: int)

  /** The leaderboard's own knockout rule: the base points from the id prefix, the
      champion bonus only inside the correct-winner case. It gives every match the
      analysis' score, so at most 23 points. */
  function LeaderboardMatchScore(matchId: string, predicted: KnockoutMatch, actual: KnockoutResult): (n: int)
    ensures n == MatchScore(matchId, predicted, actual)
    ensures 0 <= n <= 23
  {
    var basePoints :=
      if StartsWith(matchId, "r16") then 4
      else if StartsWith(matchId, "qf") then 6
      else if StartsWith(matchId, "sf") then 8
      else if matchId == "third" then 5
      else if matchId == "final" then 10
      else 0;
    (if predicted.winner == actual.winner then basePoints + (if matchId == "final" then 5 else 0) else 0)
    + (if predicted.regularTime1 == actual.regularTime1 && predicted.regularTime2 == actual.regularTime2
       then basePoints / 2 else 0)
    + (if predicted.wentToExtraTime == actual.wentToExtraTime.GetOr(false) && actual.wentToExtraTime == Some(true)
       then 1 else 0)
    + (if predicted.penaltyWinner == actual.penaltyWinner.GetOr("") && actual.penaltyWinner.GetOr("") != ""
       then 2 else 0)
  }

  /** The leaderboard scores a match exactly as the analysis does. */
  lemma MatchScoresAgree(matchId: string, predicted: KnockoutMatch, actual: KnockoutResult)
    ensures LeaderboardMatchScore(matchId, predicted, actual) == MatchScore(matchId, predicted, actual)
  {
  }

  /** The groups loop runs over the groups that have an official result. */
  function ResultGroupsTotal(p: Prediction, r: TournamentResults, gs: seq<Group>): int {
    if gs == [] then 0
    else
      var g := gs[|gs| - 1];
      ResultGroupsTotal(p, r, gs[..|gs| - 1]) +
      (if g in r.groupResults then GroupScore(ListOr(p.groupPredictions, g), r.groupResults[g]) else 0)
  }

  function LeaderboardKnockoutTotal(p: Prediction, r: TournamentResults, ss: seq<Slot>): int {
    if ss == [] then 0
    else
      var s := ss[|ss| - 1];
      LeaderboardKnockoutTotal(p, r, ss[..|ss| - 1]) +
      (if s in p.knockoutPredictions && s in r.knockoutResults
       then LeaderboardMatchScore(SlotId(s), p.knockoutPredictions[s], r.knockoutResults[s]) else 0)
  }

  /** calculatedScore, which is always the analysis' total points. */
  function LeaderboardScore(p: Prediction, r: TournamentResults): (n: int)
    ensures n == TotalPoints(p, r)
  {
    ResultGroupsAgree(p, r, AllGroups);
    KnockoutTotalsAgree(p, r, AllSlots);
    ResultGroupsTotal(p, r, AllGroups) + LeaderboardKnockoutTotal(p, r, AllSlots)
  }

  lemma {:induction false} ResultGroupsAgree(p: Prediction, r: TournamentResults, gs: seq<Group>)
    ensures ResultGroupsTotal(p, r, gs) == GroupTotal(p, r, gs)
  {
    if gs != [] {
      ResultGroupsAgree(p, r, gs[..|gs| - 1]);
      var g := gs[|gs| - 1];
      if g !in r.groupResults {
        assert GroupScore(ListOr(p.groupPredictions, g), []) == 0;
      }
    }
  }

  lemma {:induction false} KnockoutTotalsAgree(p: Prediction, r: TournamentResults, ss: seq<Slot>)
    ensures LeaderboardKnockoutTotal(p, r, ss) == KnockoutTotal(p, r, ss)
  {
    if ss != [] {
      KnockoutTotalsAgree(p, r, ss[..|ss| - 1]);
      var s := ss[|ss| - 1];
      if s in p.knockoutPredictions && s in r.knockoutResults {
        MatchScoresAgree(SlotId(s), p.knockoutPredictions[s], r.knockoutResults[s]);
      }
    }
  }

  /** A groups loop skipping absent results and the analysis' loop over A-H with
      missing results read as [] arrive at the same total. */
  lemma LeaderboardAgreesWithAnalysis(p: Prediction, r: TournamentResults)
    ensures LeaderboardScore(p, r) == TotalPoints(p, r)
  {
    ResultGroupsAgree(p, r, AllGroups);
    KnockoutTotalsAgree(p, r, AllSlots);
  }

  /** The groups part of one prediction's scoring. */
  method ScoreResultGroups(p: Prediction, r: TournamentResults) returns (score: int)
    ensures score == ResultGroupsTotal(p, r, AllGroups)
  {
    score := 0;
    var i := 0;
    while i < |AllGroups|
      invariant 0 <= i <= |AllGroups|
      invariant score == ResultGroupsTotal(p, r, AllGroups[..i])
    {
      var group := AllGroups[i];
      if group in r.groupResults {
        var groupScore := ScoreGroup(ListOr(p.groupPredictions, group), r.groupResults[group]);
        score := score + groupScore;
      }
      assert AllGroups[..i + 1][..i] == AllGroups[..i];
      i := i + 1;
    }
    assert AllGroups[..i] == AllGroups;
  }

  /** One knockout match's points, accumulated as the leaderboard does. */
  method ScoreKnockoutMatch(id: string, userPrediction: KnockoutMatch, actualResult: KnockoutResult)
    returns (matchScore: int)
    ensures matchScore == LeaderboardMatchScore(id, userPrediction, actualResult)
    ensures 0 <= matchScore <= 23
  {
    var basePoints := 0;
    if StartsWith(id, "r16") { basePoints := 4; }
    else if StartsWith(id, "qf") { basePoints := 6; }
    else if StartsWith(id, "sf") { basePoints := 8; }
    else if id == "third" { basePoints := 5; }
    else if id == "final" { basePoints := 10; }
    matchScore := 0;
    if userPrediction.winner == actualResult.winner {
      matchScore := matchScore + basePoints;
      if id == "final" {
        matchScore := matchScore + 5;
      }
    }
    if userPrediction.regularTime1 == actualResult.regularTime1 && userPrediction.regularTime2 == actualResult.regularTime2 {
      matchScore := matchScore + basePoints / 2;
    }
    if userPrediction.wentToExtraTime == actualResult.wentToExtraTime.GetOr(false) && actualResult.wentToExtraTime == Some(true) {
      matchScore := matchScore + 1;
    }
    if userPrediction.penaltyWinner == actualResult.penaltyWinner.GetOr("") && actualResult.penaltyWinner.GetOr("") != "" {
      matchScore := matchScore + 2;
    }
  }

  /** The knockout part of one prediction's scoring. */
  method ScoreKnockoutMatches(p: Prediction, r: TournamentResults) returns (score: int)
    ensures score == LeaderboardKnockoutTotal(p, r, AllSlots)
  {
    score := 0;
    var k := 0;
    while k < |AllSlots|
      invariant 0 <= k <= |AllSlots|
      invariant score == LeaderboardKnockoutTotal(p, r, AllSlots[..k])
    {
      var matchId := AllSlots[k];
      if matchId in p.knockoutPredictions && matchId in r.knockoutResults {
        var matchScore := ScoreKnockoutMatch(SlotId(matchId), p.knockoutPredictions[matchId], r.knockoutResults[matchId]);
        score := score + matchScore;
      }
      assert AllSlots[..k + 1][..k] == AllSlots[..k];
      k := k + 1;
    }
    assert AllSlots[..k] == AllSlots;
  }

  /** The scoring of one prediction: groups first, then knockout matches. */
  method ScorePrediction(p: Prediction, r: TournamentResults) returns (score: int)
    ensures score == LeaderboardScore(p, r)
    ensures score == TotalPoints(p, r)
  {
    var groupsScore := ScoreResultGroups(p, r);
    var knockoutScore := ScoreKnockoutMatches(p, r);
    score := groupsScore + knockoutScore;
    LeaderboardAgreesWithAnalysis(p, r);
  }

  /** `predictions.map(...)`: every prediction with its score, in stored order. */
  function ScoreAll(ps: seq<Prediction>, r: TournamentResults): (scored: seq<Scored>)
    ensures |scored| == |ps|
    ensures forall i :: 0 <= i < |ps| ==> scored[i] == Scored(ps[i], LeaderboardScore(ps[i], r))
  {
    if ps == [] then [] else ScoreAll(ps[..|ps| - 1], r) + [Scored(ps[|ps| - 1], LeaderboardScore(ps[|ps| - 1], r))]
  }

  // ----- The descending stable sort -----

  predicate Descending(ys: seq<Scored>) {
    forall i, j :: 0 <= i < j < |ys| ==> ys[i].calculatedScore >= ys[j].calculatedScore
  }

  /** `x` placed after every leading entry scored at least as high. */
  function InsertByScore(ys: seq<Scored>, x: Scored): (r: seq<Scored>)
    ensures |r| == |ys| + 1
  {
    if ys == [] then [x]
    else if ys[0].calculatedScore >= x.calculatedScore then [ys[0]] + InsertByScore(ys[1..], x)
    else [x] + ys
  }

  /** The stable sort by descending score, as an insertion of each entry in turn into
      the already sorted entries before it. */
  function SortedByScore(xs: seq<Scored>): (r: seq<Scored>)
    ensures |r| == |xs|
  {
    if xs == [] then [] else InsertByScore(SortedByScore(xs[..|xs| - 1]), xs[|xs| - 1])
  }

  lemma {:induction false} InsertPermutes(ys: seq<Scored>, x: Scored)
    ensures multiset(InsertByScore(ys, x)) == multiset(ys) + multiset{x}
  {
    if ys != [] && ys[0].calculatedScore >= x.calculatedScore {
      InsertPermutes(ys[1..], x);
      assert ys == [ys[0]] + ys[1..];
    }
  }

  /** The sort only reorders: every entry is kept, once. */
  lemma {:induction false} SortPermutes(xs: seq<Scored>)
    ensures multiset(SortedByScore(xs)) == multiset(xs)
  {
    if xs != [] {
      SortPermutes(xs[..|xs| - 1]);
      InsertPermutes(SortedByScore(xs[..|xs| - 1]), xs[|xs| - 1]);
      assert xs == xs[..|xs| - 1] + [xs[|xs| - 1]];
    }
  }

  lemma {:induction false} InsertKeepsDescending(ys: seq<Scored>, x: Scored)
    requires Descending(ys)
    ensures Descending(InsertByScore(ys, x))
    ensures InsertByScore(ys, x)[0] == if ys != [] && ys[0].calculatedScore >= x.calculatedScore then ys[0] else x
  {
    if ys != [] && ys[0].calculatedScore >= x.calculatedScore {
      InsertKeepsDescending(ys[1..], x);
      InsertPermutes(ys[1..], x);
      var t := InsertByScore(ys[1..], x);
      forall k | 0 <= k < |t| ensures ys[0].calculatedScore >= t[k].calculatedScore {
        assert t[k] in multiset(t);
        assert t[k] == x || t[k] in multiset(ys[1..]);
        if t[k] != x {
          var m :| 0 <= m < |ys[1..]| && ys[1..][m] == t[k];
          assert ys[m + 1] == t[k];
        }
      }
    }
  }

  lemma {:induction false} SortDescending(xs: seq<Scored>)
    ensures Descending(SortedByScore(xs))
  {
    if xs != [] {
      SortDescending(xs[..|xs| - 1]);
      InsertKeepsDescending(SortedByScore(xs[..|xs| - 1]), xs[|xs| - 1]);
    }
  }

  /** The entries scored `v`, in order. */
  function WithScore(ys: seq<Scored>, v: int): seq<Scored> {
    if ys == [] then []
    else (if ys[0].calculatedScore == v then [ys[0]] else []) + WithScore(ys[1..], v)
  }

  /** WithScore keeps exactly the entries scored `v`. */
  lemma {:induction false} WithScoreMembers(ys: seq<Scored>, v: int, y: Scored)
    ensures y in WithScore(ys, v) <==> y in ys && y.calculatedScore == v
  {
    if ys != [] {
      WithScoreMembers(ys[1..], v, y);
      assert y in ys <==> y == ys[0] || y in ys[1..] by {
        assert ys == [ys[0]] + ys[1..];
      }
    }
  }

  lemma {:induction false} WithScoreAppend(a: seq<Scored>, b: seq<Scored>, v: int)
    ensures WithScore(a + b, v) == WithScore(a, v) + WithScore(b, v)
  {
    if a == [] {
      assert a + b == b;
    } else {
      var c := a + b;
      var head := if a[0].calculatedScore == v then [a[0]] else [];
      assert c[0] == a[0] && c[1..] == a[1..] + b;
      WithScoreAppend(a[1..], b, v);
      assert WithScore(c, v) == head + (WithScore(a[1..], v) + WithScore(b, v));
      assert WithScore(a, v) == head + WithScore(a[1..], v);
    }
  }

  lemma {:induction false} InsertWithScore(ys: seq<Scored>, x: Scored, v: int)
    requires Descending(ys)
    ensures WithScore(InsertByScore(ys, x), v) == WithScore(ys, v) + (if x.calculatedScore == v then [x] else [])
  {
    if ys == [] {
    } else if ys[0].calculatedScore >= x.calculatedScore {
      InsertWithScore(ys[1..], x, v);
      assert WithScore(InsertByScore(ys, x), v) ==
        (if ys[0].calculatedScore == v then [ys[0]] else []) + WithScore(InsertByScore(ys[1..], x), v);
    } else {
      if x.calculatedScore == v {
        NoneScored(ys, v);
      }
      assert WithScore([x] + ys, v) == (if x.calculatedScore == v then [x] else []) + WithScore(ys, v) by {
        assert ([x] + ys)[1..] == ys;
      }
    }
  }

  lemma DescendingTail(ys: seq<Scored>)
    requires Descending(ys) && ys != []
    ensures Descending(ys[1..])
  {
    forall i, j | 0 <= i < j < |ys[1..]|
      ensures ys[1..][i].calculatedScore >= ys[1..][j].calculatedScore
    {
      assert ys[1..][i] == ys[i + 1] && ys[1..][j] == ys[j + 1];
    }
  }

  /** In a descending list whose head is scored below `v`, nothing is scored `v`. */
  lemma {:induction false} NoneScored(ys: seq<Scored>, v: int)
    requires Descending(ys)
    requires ys != [] ==> ys[0].calculatedScore < v
    ensures WithScore(ys, v) == []
  {
    if ys != [] {
      if |ys| > 1 {
        assert ys[0].calculatedScore >= ys[1].calculatedScore;
      }
      DescendingTail(ys);
      NoneScored(ys[1..], v);
    }
  }

  /** Stability: for every score, the entries with that score keep their input order. */
  lemma {:induction false} SortStable(xs: seq<Scored>, v: int)
    ensures WithScore(SortedByScore(xs), v) == WithScore(xs, v)
  {
    if xs != [] {
      var init, last := xs[..|xs| - 1], xs[|xs| - 1];
      var mine := if last.calculatedScore == v then [last] else [];
      SortStable(init, v);
      SortDescending(init);
      InsertWithScore(SortedByScore(init), last, v);
      assert WithScore(SortedByScore(xs), v) == WithScore(init, v) + mine;
      assert xs == init + [last];
      WithScoreAppend(init, [last], v);
      assert WithScore([last], v) == mine + WithScore([last][1..], v);
      assert [last][1..] == [];
    }
  }

  /** Any descending arrangement that keeps every score's entries in input order is
      the one SortedByScore gives: whichever stable algorithm the engine runs, the
      ranking is determined. */
  lemma {:induction false} StableSortUnique(xs: seq<Scored>, ys: seq<Scored>)
    requires Descending(ys)
    requires forall v :: WithScore(ys, v) == WithScore(xs, v)
    ensures ys == SortedByScore(xs)
  {
    SortDescending(xs);
    forall v ensures WithScore(ys, v) == WithScore(SortedByScore(xs), v) {
      SortStable(xs, v);
    }
    DescendingDeterminedByScores(ys, SortedByScore(xs));
  }

  lemma {:induction false} DescendingDeterminedByScores(a: seq<Scored>, b: seq<Scored>)
    requires Descending(a) && Descending(b)
    requires forall v :: WithScore(a, v) == WithScore(b, v)
    ensures a == b
  {
    if a == [] {
      if b != [] {
        assert false;
      }
    } else if b == [] {
      WithScoreMembers(a, a[0].calculatedScore, a[0]);
      assert false;
    } else {
      var m := a[0].calculatedScore;
      assert b[0].calculatedScore == m by {
        WithScoreMembers(a, m, a[0]);
        WithScoreMembers(b, m, a[0]);
        WithScoreMembers(b, b[0].calculatedScore, b[0]);
        WithScoreMembers(a, b[0].calculatedScore, b[0]);
        var i :| 0 <= i < |b| && b[i] == a[0];
        var j :| 0 <= j < |a| && a[j] == b[0];
        assert b[0].calculatedScore >= b[i].calculatedScore;
        assert a[0].calculatedScore >= a[j].calculatedScore;
      }
      assert a == [a[0]] + a[1..] && b == [b[0]] + b[1..];
      assert WithScore(a, m) == [a[0]] + WithScore(a[1..], m);
      assert WithScore(b, m) == [b[0]] + WithScore(b[1..], m);
      assert WithScore(a, m)[0] == a[0] && WithScore(b, m)[0] == b[0];
      forall v ensures WithScore(a[1..], v) == WithScore(b[1..], v) {
        var head := if m == v then [a[0]] else [];
        assert WithScore(a, v) == head + WithScore(a[1..], v);
        assert WithScore(b, v) == head + WithScore(b[1..], v);
        assert (head + WithScore(a[1..], v))[|head|..] == WithScore(a[1..], v);
        assert (head + WithScore(b[1..], v))[|head|..] == WithScore(b[1..], v);
      }
      DescendingTail(a);
      DescendingTail(b);
      DescendingDeterminedByScores(a[1..], b[1..]);
    }
  }

  /** The insertion point: with `S` descending, the entry goes after the entries scored
      at least as high and before those scored lower. */
  lemma {:induction false} InsertAt(S: seq<Scored>, x: Scored, j: nat)
    requires Descending(S) && j <= |S|
    requires j > 0 ==> S[j - 1].calculatedScore >= x.calculatedScore
    requires forall k :: j <= k < |S| ==> S[k].calculatedScore < x.calculatedScore
    ensures InsertByScore(S, x) == S[..j] + [x] + S[j..]
  {
    if S == [] {
    } else if j == 0 {
      assert S[0].calculatedScore < x.calculatedScore;
      assert S[..0] == [] && S[0..] == S;
    } else {
      assert S[0].calculatedScore >= S[j - 1].calculatedScore;
      var T := S[1..];
      DescendingTail(S);
      assert j - 1 > 0 ==> T[j - 2] == S[j - 1];
      forall k | j - 1 <= k < |T| ensures T[k].calculatedScore < x.calculatedScore {
        assert T[k] == S[k + 1];
      }
      InsertAt(T, x, j - 1);
      assert T[..j - 1] == S[1..j];
      assert T[j - 1..] == S[j..];
      assert S[..j] == [S[0]] + S[1..j];
      assert InsertByScore(S, x) == [S[0]] + InsertByScore(T, x);
    }
  }

  /** One pass of the insertion sort: `a[i]` moves left past the entries scored lower. */
  method InsertStep(a: array<Scored>, i: nat)
    requires i < a.Length && Descending(a[..i])
    modifies a
    ensures a[..i + 1] == InsertByScore(old(a[..i]), old(a[i]))
    ensures a[i + 1..] == old(a[i + 1..])
  {
    ghost var S := a[..i];
    var x := a[i];
    var j := ShiftLower(a, i, x);
    a[j] := x;
    InsertAt(S, x, j);
    ShiftedInsert(S, x, j, a[..i + 1]);
    assert a[i + 1..] == old(a[i + 1..]);
  }

  /** The shifting loop of a pass: every entry before `i` scored lower than `x`, from
      the right, moves one place to the right; `j` is the place freed for `x`. */
  method ShiftLower(a: array<Scored>, i: nat, x: Scored) returns (j: nat)
    requires i < a.Length
    modifies a
    ensures j <= i
    ensures forall k :: 0 <= k < j ==> a[k] == old(a[k])
    ensures forall k :: j < k <= i ==> a[k] == old(a[k - 1])
    ensures forall k :: i < k < a.Length ==> a[k] == old(a[k])
    ensures forall k :: j <= k < i ==> old(a[k]).calculatedScore < x.calculatedScore
    ensures j > 0 ==> old(a[j - 1]).calculatedScore >= x.calculatedScore
  {
    j := i;
    while j > 0 && a[j - 1].calculatedScore < x.calculatedScore
      invariant j <= i
      invariant forall k :: 0 <= k < j ==> a[k] == old(a[k])
      invariant forall k :: j < k <= i ==> a[k] == old(a[k - 1])
      invariant forall k :: i < k < a.Length ==> a[k] == old(a[k])
      invariant forall k :: j <= k < i ==> old(a[k]).calculatedScore < x.calculatedScore
    {
      a[j] := a[j - 1];
      j := j - 1;
    }
  }

  /** The array after the shifting loop: the entries before `j`, then `x`, then the
      shifted ones. */
  lemma ShiftedInsert(S: seq<Scored>, x: Scored, j: nat, b: seq<Scored>)
    requires j <= |S| && |b| == |S| + 1
    requires forall k :: 0 <= k < j ==> b[k] == S[k]
    requires b[j] == x
    requires forall k :: j < k < |b| ==> b[k] == S[k - 1]
    ensures b == S[..j] + [x] + S[j..]
  {
    forall k | 0 <= k < |b| ensures b[k] == (S[..j] + [x] + S[j..])[k] {
      if k > j {
        assert (S[..j] + [x] + S[j..])[k] == S[k - 1];
      }
    }
  }

  /** `scoredPredictions.sort((a, b) => b.calculatedScore - a.calculatedScore)`, in place:
      an insertion sort, which like the engine's sort is stable. */
  method SortByScore(a: array<Scored>)
    modifies a
    ensures a[..] == SortedByScore(old(a[..]))
  {
    ghost var input := a[..];
    var i := 0;
    while i < a.Length
      invariant 0 <= i <= a.Length
      invariant a[..i] == SortedByScore(input[..i])
      invariant a[i..] == input[i..]
    {
      SortDescending(input[..i]);
      InsertStep(a, i);
      assert input[..i + 1][..i] == input[..i];
      assert a[i + 1..] == input[i + 1..];
      i := i + 1;
    }
    assert a[..] == a[..i] && input[..i] == input;
  }

  /** The ranking effect: recomputed only when there is at least one prediction and a
      results record; otherwise the previous ranking stays (None). */
  method RankPredictions(predictions: seq<Prediction>, results: Option<TournamentResults>)
    returns (board: Option<seq<Scored>>)
    ensures |predictions| > 0 && results.Some? ==> board == Some(SortedByScore(ScoreAll(predictions, results.value)))
    ensures !(|predictions| > 0 && results.Some?) ==> board == None
  {
    if !(|predictions| > 0 && results.Some?) {
      return None;
    }
    var r := results.value;
    var scoredPredictions := new Scored[|predictions|](_ => Scored(predictions[0], 0));
    var i := 0;
    while i < |predictions|
      invariant 0 <= i <= |predictions|
      invariant forall k :: 0 <= k < i ==>
        scoredPredictions[k] == Scored(predictions[k], LeaderboardScore(predictions[k], r))
    {
      var score := ScorePrediction(predictions[i], r);
      scoredPredictions[i] := Scored(predictions[i], score);
      i := i + 1;
    }
    assert scoredPredictions[..] == ScoreAll(predictions, r);
    SortByScore(scoredPredictions);
    board := Some(scoredPredictions[..]);
  }

  /** The ranking is highest first, holds every prediction once with the score the
      analysis gives it, and keeps stored order among equal scores. */
  lemma RankingProperties(predictions: seq<Prediction>, r: TournamentResults)
    ensures Descending(SortedByScore(ScoreAll(predictions, r)))
    ensures multiset(SortedByScore(ScoreAll(predictions, r))) == multiset(ScoreAll(predictions, r))
    ensures forall e :: e in SortedByScore(ScoreAll(predictions, r)) ==>
      e.prediction in predictions && e.calculatedScore == TotalPoints(e.prediction, r)
    ensures forall v :: WithScore(SortedByScore(ScoreAll(predictions, r)), v) == WithScore(ScoreAll(predictions, r), v)
  {
    var scored := ScoreAll(predictions, r);
    SortDescending(scored);
    SortPermutes(scored);
    forall v ensures WithScore(SortedByScore(scored), v) == WithScore(scored, v) {
      SortStable(scored, v);
    }
    forall e | e in SortedByScore(scored)
      ensures e.prediction in predictions && e.calculatedScore == TotalPoints(e.prediction, r)
    {
      assert e in multiset(scored);
      var k :| 0 <= k < |scored| && scored[k] == e;
      LeaderboardAgreesWithAnalysis(predictions[k], r);
    }
  }
}
