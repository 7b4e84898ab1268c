/** components/leaderboard.tsx: the earlier ranking. It scores group predictions
    only, 2 points for every predicted qualifier that went through, whatever its
    position, and ranks with the same stable descending sort. */
module Leaderboard {
  import opened Types
  import opened PredictionAnalysis
  import opened LeaderboardSimple

  /** A group's points: 2 for every predicted team in the official qualifier list. */
  function QualifierPoints(predicted: seq<Team>, actual: seq<Team>): (n: nat)
    ensures n <= 2 * |predicted|
    ensures (forall t :: t in predicted ==> t in actual) ==> n == 2 * |predicted|
    ensures (forall t :: t in predicted ==> t !in actual) ==> n == 0
  {
    if predicted == [] then 0
    else
      var k := |predicted| - 1;
      assert forall t :: t in predicted[..k] ==> t in predicted;
      QualifierPoints(predicted[..k], actual) + (if predicted[k] in actual then 2 else 0)
  }

  /** Against the later rule, which adds a point for the right position, a group is
      worth at least as much and at most half as much again. */
  lemma {:induction false} QualifierPointsBounds(predicted: seq<Team>, actual: seq<Team>)
    ensures QualifierPoints(predicted, actual) % 2 == 0
    ensures QualifierPoints(predicted, actual) <= GroupScore(predicted, actual)
    ensures 2 * GroupScore(predicted, actual) <= 3 * QualifierPoints(predicted, actual)
  {
    if predicted != [] {
      QualifierPointsBounds(predicted[..|predicted| - 1], actual);
    }
  }

  /** Only the groups that have an official result are scored. */
  function QualifierTotal(p: Prediction, r: TournamentResults, gs: seq<Group>): int {
    if gs == [] then 0
    else
      var g := gs[|gs| - 1];
      QualifierTotal(p, r, gs[..|gs| - 1]) +
      (if g in r.groupResults then QualifierPoints(ListOr(p.groupPredictions, g), r.groupResults[g]) else 0)
  }

  /** calculatedScore: knockout predictions are not scored. The score is even and
      never more than the later rule gives the same group picks. */
  function QualifierScore(p: Prediction, r: TournamentResults): (n: int)
    ensures n >= 0 && n % 2 == 0
    ensures n <= GroupTotal(p, r, AllGroups)
  {
    QualifierTotalBounds(p, r, AllGroups);
    QualifierTotal(p, r, AllGroups)
  }

  /** Every prediction, however many picks it stores per group, gets an even score
      no higher than the later rule gives it. */
  lemma {:induction false} QualifierTotalBounds(p: Prediction, r: TournamentResults, gs: seq<Group>)
    ensures QualifierTotal(p, r, gs) % 2 == 0
    ensures 0 <= QualifierTotal(p, r, gs) <= GroupTotal(p, r, gs)
  {
    if gs != [] {
      var g := gs[|gs| - 1];
      QualifierTotalBounds(p, r, gs[..|gs| - 1]);
      QualifierPointsBounds(ListOr(p.groupPredictions, g), ListOr(r.groupResults, g));
    }
  }

  /** With at most two picks per group, each group is worth at most 4 points. */
  lemma {:induction false} QualifierTotalCapped(p: Prediction, r: TournamentResults, gs: seq<Group>)
    requires forall g :: g in p.groupPredictions ==> |p.groupPredictions[g]| <= 2
    ensures QualifierTotal(p, r, gs) <= 4 * |gs|
  {
    if gs != [] {
      QualifierTotalCapped(p, r, gs[..|gs| - 1]);
    }
  }

  /** The earlier score is never more than the later leaderboard (and the analysis)
      gives the same prediction. */
  lemma QualifierScoreBounds(p: Prediction, r: TournamentResults)
    ensures QualifierScore(p, r) <= TotalPoints(p, r)
    ensures QualifierScore(p, r) <= LeaderboardScore(p, r)
  {
    LeaderboardAgreesWithAnalysis(p, r);
  }

  /** With at most two picks per group the earlier score is at most 32. */
  lemma QualifierScoreCapped(p: Prediction, r: TournamentResults)
    requires forall g :: g in p.groupPredictions ==> |p.groupPredictions[g]| <= 2
    ensures QualifierScore(p, r) <= 32
  {
    QualifierTotalCapped(p, r, AllGroups);
  }

  /** The knockout predictions and results never change the earlier score. */
  lemma {:induction false} QualifierScoreIgnoresKnockout(p: Prediction, r: TournamentResults, gs: seq<Group>,
                                                         knockout: map<Slot, KnockoutMatch>, official: map<Slot, KnockoutResult>)
    ensures QualifierTotal(p.(knockoutPredictions := knockout), r.(knockoutResults := official), gs) ==
            QualifierTotal(p, r, gs)
  {
    if gs != [] {
      QualifierScoreIgnoresKnockout(p, r, gs[..|gs| - 1], knockout, official);
    }
  }

  /** One group's inner loop. */
  method ScoreQualifiers(userPrediction: seq<Team>, actualQualified: seq<Team>) returns (score: int)
    ensures score == QualifierPoints(userPrediction, actualQualified)
  {
    score := 0;
    var index := 0;
    while index < |userPrediction|
      invariant 0 <= index <= |userPrediction|
      invariant score == QualifierPoints(userPrediction[..index], actualQualified)
    {
      if userPrediction[index] in actualQualified {
        score := score + 2;
      }
      assert userPrediction[..index + 1][..index] == userPrediction[..index];
      index := index + 1;
    }
    assert userPrediction[..index] == userPrediction;
  }

  /** One prediction's score: the groups loop. */
  method ScorePrediction(p: Prediction, r: TournamentResults) returns (score: int)
    ensures score == QualifierScore(p, r)
  {
    score := 0;
    var i := 0;
    while i < |AllGroups|
      invariant 0 <= i <= |AllGroups|
      invariant score == QualifierTotal(p, r, AllGroups[..i])
    {
      var group := AllGroups[i];
      if group in r.groupResults {
        var groupScore := ScoreQualifiers(ListOr(p.groupPredictions, group), r.groupResults[group]);
        score := score + groupScore;
      }
      assert AllGroups[..i + 1][..i] == AllGroups[..i];
      i := i + 1;
    }
    assert AllGroups[..i] == AllGroups;
  }

  function ScoreAllByQualifiers(ps: seq<Prediction>, r: TournamentResults): (scored: seq<Scored>)
    ensures |scored| == |ps|
    ensures forall i :: 0 <= i < |ps| ==> scored[i] == Scored(ps[i], QualifierScore(ps[i], r))
  {
    if ps == [] then []
    else ScoreAllByQualifiers(ps[..|ps| - 1], r) + [Scored(ps[|ps| - 1], QualifierScore(ps[|ps| - 1], r))]
  }

  /** The ranking effect, recomputed only with at least one prediction and a results
      record (None otherwise: the previous ranking stays). */
  method RankPredictions(predictions: seq<Prediction>, results: Option<TournamentResults>)
    returns (board: Option<seq<Scored>>)
    ensures |predictions| > 0 && results.Some? ==>
      board == Some(SortedByScore(ScoreAllByQualifiers(predictions, results.value)))
    ensures !(|predictions| > 0 && results.Some?) ==> board == None
  {
    if !(|predictions| > 0 && results.Some?) {
      return None;
    }
    var r := results.value;
    var scoredPredictions := new Scored[|predictions|](_ => Scored(predictions[0], 0));
    var i := 0;
    while i < |predictions|
      invariant 0 <= i <= |predictions|
      invariant forall k :: 0 <= k < i ==>
        scoredPredictions[k] == Scored(predictions[k], QualifierScore(predictions[k], r))
    {
      var score := ScorePrediction(predictions[i], r);
      scoredPredictions[i] := Scored(predictions[i], score);
      i := i + 1;
    }
    assert scoredPredictions[..] == ScoreAllByQualifiers(predictions, r);
    SortByScore(scoredPredictions);
    board := Some(scoredPredictions[..]);
  }

  /** The earlier ranking is highest first, holds every prediction once with an even
      score, and keeps stored order among equal scores, whatever the stored picks. */
  lemma RankingProperties(predictions: seq<Prediction>, r: TournamentResults)
    ensures Descending(SortedByScore(ScoreAllByQualifiers(predictions, r)))
    ensures multiset(SortedByScore(ScoreAllByQualifiers(predictions, r))) == multiset(ScoreAllByQualifiers(predictions, r))
    ensures forall e :: e in SortedByScore(ScoreAllByQualifiers(predictions, r)) ==>
      e.prediction in predictions && e.calculatedScore % 2 == 0 && 0 <= e.calculatedScore
    ensures forall v ::
      WithScore(SortedByScore(ScoreAllByQualifiers(predictions, r)), v) == WithScore(ScoreAllByQualifiers(predictions, r), v)
  {
    var scored := ScoreAllByQualifiers(predictions, r);
    SortDescending(scored);
    SortPermutes(scored);
    forall v ensures WithScore(SortedByScore(scored), v) == WithScore(scored, v) {
      SortStable(scored, v);
    }
    forall e | e in SortedByScore(scored)
      ensures e.prediction in predictions && e.calculatedScore % 2 == 0 && 0 <= e.calculatedScore
    {
      assert e in multiset(scored);
      var k :| 0 <= k < |scored| && scored[k] == e;
    }
  }

  /** When every stored prediction has at most two picks per group, every ranked
      score lies between 0 and 32. */
  lemma RankingCapped(predictions: seq<Prediction>, r: TournamentResults)
    requires forall p, g :: p in predictions && g in p.groupPredictions ==> |p.groupPredictions[g]| <= 2
    ensures forall e :: e in SortedByScore(ScoreAllByQualifiers(predictions, r)) ==> 0 <= e.calculatedScore <= 32
  {
    var scored := ScoreAllByQualifiers(predictions, r);
    SortPermutes(scored);
    forall e | e in SortedByScore(scored) ensures 0 <= e.calculatedScore <= 32 {
      assert e in multiset(scored);
      var k :| 0 <= k < |scored| && scored[k] == e;
      QualifierScoreCapped(predictions[k], r);
    }
  }
}
