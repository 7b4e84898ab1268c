/** components/prediction-analysis.tsx: the scoring of one prediction against the
    official results. A group earns points for every predicted qualifier that went
    through and one more when it went through in the predicted position; a knockout
    match with an official result earns points by its phase, with bonuses for the exact
    score, extra time, the penalty winner and the champion. */
module PredictionAnalysis {
  import opened Types

  /** getMatchPhase's answers; NoPhase is its "". */
  datatype MatchPhaseName = RoundOf16 | QuarterFinals | SemiFinals | ThirdPlace | FinalPhase | NoPhase

  predicate StartsWith(s: string, prefix: string) {
    |prefix| <= |s| && s[..|prefix|] == prefix
  }

  /** The phase each slot of the bracket belongs to. */
  function SlotPhase(s: Slot): MatchPhaseName {
    match s
    case R16(_) => RoundOf16
    case QF(_) => QuarterFinals
    case SF(_) => SemiFinals
    case Third => ThirdPlace
    case Final => FinalPhase
  }

  /** Each slot id starts with its round's prefix and no other round's. */
  lemma SlotIdPrefixes()
    ensures forall s :: ((StartsWith(SlotId(s), "r16") <==> s.R16?) &&
      (StartsWith(SlotId(s), "qf") <==> s.QF?) && (StartsWith(SlotId(s), "sf") <==> s.SF?))
  {
    forall s ensures (StartsWith(SlotId(s), "r16") <==> s.R16?) &&
      (StartsWith(SlotId(s), "qf") <==> s.QF?) && (StartsWith(SlotId(s), "sf") <==> s.SF?)
    {
      match s
      case R16(i) => assert SlotId(s)[..3] == "r16" && SlotId(s)[..2] == "r1";
      case QF(j) => assert SlotId(s)[..3] == "qf_" && SlotId(s)[..2] == "qf";
      case SF(k) => assert SlotId(s)[..3] == "sf_" && SlotId(s)[..2] == "sf";
      case Third => assert SlotId(s)[..3] == "thi" && SlotId(s)[..2] == "th";
      case Final => assert SlotId(s)[..3] == "fin" && SlotId(s)[..2] == "fi";
    }
  }

  /** getMatchPhase: the id's prefix decides, "third" and "final" must match exactly.
      Every slot id gets its own slot's phase. */
  function MatchPhase(matchId: string): (ph: MatchPhaseName)
    ensures forall s :: SlotId(s) == matchId ==> ph == SlotPhase(s)
    ensures ph == ThirdPlace ==> matchId == "third"
    ensures ph == FinalPhase ==> matchId == "final"
  {
    SlotIdPrefixes();
    if StartsWith(matchId, "r16") then RoundOf16
    else if StartsWith(matchId, "qf") then QuarterFinals
    else if StartsWith(matchId, "sf") then SemiFinals
    else if matchId == "third" then ThirdPlace
    else if matchId == "final" then FinalPhase
    else NoPhase
  }

  /** getBasePointsByPhase. */
  function BasePoints(phase: MatchPhaseName): (n: nat)
    ensures n <= 10
    ensures n == 0 <==> phase == NoPhase
  {
    match phase
    case RoundOf16 => 4
    case QuarterFinals => 6
    case SemiFinals => 8
    case ThirdPlace => 5
    case FinalPhase => 10
    case NoPhase => 0
  }

  /** The points the phase table gives each slot of the bracket. */
  function SlotBase(s: Slot): nat {
    match s
    case R16(_) => 4
    case QF(_) => 6
    case SF(_) => 8
    case Third => 5
    case Final => 10
  }

  /** Every slot id is scored at its phase's points. */
  lemma SlotIdBasePoints(s: Slot)
    ensures BasePoints(MatchPhase(SlotId(s))) == SlotBase(s)
  {
    match s
    case R16(i) => assert SlotId(s)[..3] == "r16";
    case QF(j) => assert SlotId(s)[..2] == "qf";
    case SF(k) => assert SlotId(s)[..2] == "sf";
    case Third => assert SlotId(s)[..3] == "thi" && SlotId(s)[..2] == "th";
    case Final => assert SlotId(s)[..3] == "fin" && SlotId(s)[..2] == "fi";
  }

  /** The id "3rd" the structure table gives third place is not one the scorer knows. */
  lemma StructureThirdIdScoresNothing()
    ensures MatchPhase("3rd") == NoPhase && BasePoints(MatchPhase("3rd")) == 0
  {
    assert "3rd"[..3] == "3rd" && "3rd"[..2] == "3r";
  }

  /** One predicted qualifier at `index`: 2 if it went through, 1 more if it went
      through in that position (reading past the official list gives undefined). */
  function TeamPoints(team: Team, index: nat, actual: seq<Team>): (n: nat)
    ensures team !in actual ==> n == 0
    ensures team in actual ==> n == 2 || n == 3
    ensures n == 3 <==> index < |actual| && actual[index] == team
  {
    if team in actual then
      2 + (if index < |actual| && actual[index] == team then 1 else 0)
    else 0
  }

  /** A group's score: the points of its predicted qualifiers, in order. */
  function GroupScore(predicted: seq<Team>, actual: seq<Team>): (n: nat)
    ensures n <= 3 * |predicted|
    ensures (forall t :: t in predicted ==> t !in actual) ==> n == 0
  {
    if predicted == [] then 0
    else
      var k := |predicted| - 1;
      assert forall t :: t in predicted[..k] ==> t in predicted;
      GroupScore(predicted[..k], actual) + TeamPoints(predicted[k], k, actual)
  }

  /** Every predicted qualifier went through in its predicted position: full marks. */
  lemma {:induction false} PerfectGroupScore(predicted: seq<Team>, actual: seq<Team>)
    requires |predicted| <= |actual| && predicted == actual[..|predicted|]
    ensures GroupScore(predicted, actual) == 3 * |predicted|
  {
    if predicted != [] {
      var k := |predicted| - 1;
      assert predicted[..k] == actual[..k];
      assert actual[k] == predicted[k];
      PerfectGroupScore(predicted[..k], actual);
    }
  }

  /** Both qualifiers right but in swapped positions earn the qualification points only. */
  lemma SwappedQualifiers(first: Team, second: Team)
    requires first != second
    ensures GroupScore([second, first], [first, second]) == 4
  {
    assert [second, first][..1] == [second];
    assert [second][..0] == [];
  }

  /** One knockout match with an official result. Missing official extra-time and
      penalty fields read as false and "". */
  function MatchScore(matchId: string, predicted: KnockoutMatch, actual: KnockoutResult): (n: nat)
    ensures n <= BasePoints(MatchPhase(matchId)) + BasePoints(MatchPhase(matchId)) / 2 + 3 +
                 (if matchId == "final" then 5 else 0)
    ensures predicted.winner != actual.winner ==> n <= BasePoints(MatchPhase(matchId)) / 2 + 3
    ensures predicted.winner == actual.winner ==> n >= BasePoints(MatchPhase(matchId))
  {
    var base := BasePoints(MatchPhase(matchId));
    var winnerCorrect := predicted.winner == actual.winner;
    var scoreCorrect := predicted.regularTime1 == actual.regularTime1 && predicted.regularTime2 == actual.regularTime2;
    var extraTimeCorrect := predicted.wentToExtraTime == actual.wentToExtraTime.GetOr(false);
    var penaltiesCorrect := predicted.penaltyWinner == actual.penaltyWinner.GetOr("");
    (if winnerCorrect then base else 0)
    + (if scoreCorrect then base / 2 else 0)
    + (if extraTimeCorrect && actual.wentToExtraTime == Some(true) then 1 else 0)
    + (if penaltiesCorrect && actual.penaltyWinner.GetOr("") != "" then 2 else 0)
    + (if matchId == "final" && winnerCorrect then 5 else 0)
  }

  /** A prediction identical to the official result earns every bonus the result
      allows; the final predicted exactly with a penalty shoot-out is worth 23. */
  lemma ExactFinalScore(predicted: KnockoutMatch, actual: KnockoutResult)
    requires predicted.winner == actual.winner
    requires predicted.regularTime1 == actual.regularTime1 && predicted.regularTime2 == actual.regularTime2
    requires actual.wentToExtraTime == Some(true) && predicted.wentToExtraTime
    requires actual.penaltyWinner == Some(predicted.penaltyWinner) && predicted.penaltyWinner != ""
    ensures MatchScore("final", predicted, actual) == 23
  {
    SlotIdBasePoints(Final);
  }

  /** An official result without extra time never earns the extra-time point, and one
      without a penalty winner never earns the penalty points. */
  lemma NoBonusWithoutOfficialValue(matchId: string, predicted: KnockoutMatch, actual: KnockoutResult)
    requires actual.wentToExtraTime != Some(true) && actual.penaltyWinner.GetOr("") == ""
    ensures MatchScore(matchId, predicted, actual) <=
      BasePoints(MatchPhase(matchId)) + BasePoints(MatchPhase(matchId)) / 2 +
      (if matchId == "final" then 5 else 0)
  {
  }

  /** The points of a slot, 0 when the prediction or the official result is missing. */
  function SlotPoints(p: Prediction, r: TournamentResults, s: Slot): nat {
    if s in p.knockoutPredictions && s in r.knockoutResults then
      MatchScore(SlotId(s), p.knockoutPredictions[s], r.knockoutResults[s])
    else 0
  }

  /** The group score of `g`, a missing prediction or result counting as no picks. */
  function GroupPoints(p: Prediction, r: TournamentResults, g: Group): nat {
    GroupScore(ListOr(p.groupPredictions, g), ListOr(r.groupResults, g))
  }

  function GroupTotal(p: Prediction, r: TournamentResults, gs: seq<Group>): nat {
    if gs == [] then 0 else GroupTotal(p, r, gs[..|gs| - 1]) + GroupPoints(p, r, gs[|gs| - 1])
  }

  function KnockoutTotal(p: Prediction, r: TournamentResults, ss: seq<Slot>): nat {
    if ss == [] then 0 else KnockoutTotal(p, r, ss[..|ss| - 1]) + SlotPoints(p, r, ss[|ss| - 1])
  }

  /** Groups with no picks, or no official qualifiers, add nothing. */
  lemma {:induction false} GroupTotalZero(p: Prediction, r: TournamentResults, gs: seq<Group>)
    ensures p.groupPredictions == map[] || r.groupResults == map[] ==> GroupTotal(p, r, gs) == 0
  {
    if gs != [] {
      GroupTotalZero(p, r, gs[..|gs| - 1]);
    }
  }

  /** Slots with no predicted match, or no official result, add nothing. */
  lemma {:induction false} KnockoutTotalZero(p: Prediction, r: TournamentResults, ss: seq<Slot>)
    ensures p.knockoutPredictions == map[] || r.knockoutResults == map[] ==> KnockoutTotal(p, r, ss) == 0
  {
    if ss != [] {
      KnockoutTotalZero(p, r, ss[..|ss| - 1]);
    }
  }

  /** totalPoints: every group A-H and every slot. An empty prediction, or a results
      record with nothing recorded yet, scores nothing. */
  function TotalPoints(p: Prediction, r: TournamentResults): (n: nat)
    ensures p.groupPredictions == map[] && p.knockoutPredictions == map[] ==> n == 0
    ensures r.groupResults == map[] && r.knockoutResults == map[] ==> n == 0
  {
    GroupTotalZero(p, r, AllGroups);
    KnockoutTotalZero(p, r, AllSlots);
    GroupTotal(p, r, AllGroups) + KnockoutTotal(p, r, AllSlots)
  }

  /** The most a slot can earn. */
  function SlotCap(s: Slot): nat {
    SlotBase(s) + SlotBase(s) / 2 + 3 + (if s == Final then 5 else 0)
  }

  function CapTotal(ss: seq<Slot>): nat {
    if ss == [] then 0 else CapTotal(ss[..|ss| - 1]) + SlotCap(ss[|ss| - 1])
  }

  lemma SlotPointsCapped(p: Prediction, r: TournamentResults, s: Slot)
    ensures SlotPoints(p, r, s) <= SlotCap(s)
  {
    SlotIdBasePoints(s);
    match s
    case R16(_) => assert SlotId(s)[0] == 'r';
    case QF(_) => assert SlotId(s)[0] == 'q';
    case SF(_) => assert SlotId(s)[0] == 's';
    case Third => assert SlotId(s)[0] == 't';
    case Final =>
  }

  lemma CapStep(ss: seq<Slot>, k: nat)
    requires 0 < k <= |ss|
    ensures CapTotal(ss[..k]) == CapTotal(ss[..k - 1]) + SlotCap(ss[k - 1])
  {
    assert ss[..k][..k - 1] == ss[..k - 1];
  }

  /** The sixteen slots together can earn at most 183 points: eight Round of 16
      matches at 9, four quarter-finals at 12, two semifinals at 15, third place at 10
      and the final at 23. */
  lemma BracketCap()
    ensures CapTotal(AllSlots) == 183
  {
    assert AllSlots[..0] == [];
    CapStep(AllSlots, 1);
    assert CapTotal(AllSlots[..1]) == 9;
    CapStep(AllSlots, 2);
    assert CapTotal(AllSlots[..2]) == 18;
    CapStep(AllSlots, 3);
    assert CapTotal(AllSlots[..3]) == 27;
    CapStep(AllSlots, 4);
    assert CapTotal(AllSlots[..4]) == 36;
    CapStep(AllSlots, 5);
    assert CapTotal(AllSlots[..5]) == 45;
    CapStep(AllSlots, 6);
    assert CapTotal(AllSlots[..6]) == 54;
    CapStep(AllSlots, 7);
    assert CapTotal(AllSlots[..7]) == 63;
    CapStep(AllSlots, 8);
    assert CapTotal(AllSlots[..8]) == 72;
    CapStep(AllSlots, 9);
    assert CapTotal(AllSlots[..9]) == 84;
    CapStep(AllSlots, 10);
    assert CapTotal(AllSlots[..10]) == 96;
    CapStep(AllSlots, 11);
    assert CapTotal(AllSlots[..11]) == 108;
    CapStep(AllSlots, 12);
    assert CapTotal(AllSlots[..12]) == 120;
    CapStep(AllSlots, 13);
    assert CapTotal(AllSlots[..13]) == 135;
    CapStep(AllSlots, 14);
    assert CapTotal(AllSlots[..14]) == 150;
    CapStep(AllSlots, 15);
    assert CapTotal(AllSlots[..15]) == 160;
    CapStep(AllSlots, 16);
    assert CapTotal(AllSlots[..16]) == 183;
    assert AllSlots[..16] == AllSlots;
  }

  lemma {:induction false} KnockoutTotalCapped(p: Prediction, r: TournamentResults, ss: seq<Slot>)
    ensures KnockoutTotal(p, r, ss) <= CapTotal(ss)
  {
    if ss != [] {
      KnockoutTotalCapped(p, r, ss[..|ss| - 1]);
      SlotPointsCapped(p, r, ss[|ss| - 1]);
    }
  }

  lemma {:induction false} GroupTotalCapped(p: Prediction, r: TournamentResults, gs: seq<Group>)
    requires forall g :: g in p.groupPredictions ==> |p.groupPredictions[g]| <= 2
    ensures GroupTotal(p, r, gs) <= 6 * |gs|
  {
    if gs != [] {
      GroupTotalCapped(p, r, gs[..|gs| - 1]);
    }
  }

  /** With at most two qualifiers predicted per group, a prediction is worth at most
      48 group points and 183 knockout points. */
  lemma TotalPointsCapped(p: Prediction, r: TournamentResults)
    requires forall g :: g in p.groupPredictions ==> |p.groupPredictions[g]| <= 2
    ensures TotalPoints(p, r) <= 231
  {
    GroupTotalCapped(p, r, AllGroups);
    KnockoutTotalCapped(p, r, AllSlots);
    AllGroupsEnumerates();
    AllSlotsEnumerates();
    BracketCap();
  }

  /** The analysis the effect publishes: per-group points, per-slot points for the
      slots with an official result, and their sum. */
  datatype Analysis = Analysis(groupPoints: map<Group, int>, knockoutPoints: map<Slot, int>, totalPoints: int)

  function GroupPointsMap(p: Prediction, r: TournamentResults, gs: seq<Group>): map<Group, int> {
    map g | g in gs :: GroupPoints(p, r, g)
  }

  function KnockoutPointsMap(p: Prediction, r: TournamentResults, ss: seq<Slot>): map<Slot, int> {
    map s | s in ss && s in p.knockoutPredictions && s in r.knockoutResults :: SlotPoints(p, r, s)
  }

  /** The knockout points are keyed by exactly the predicted slots with a result. */
  lemma KnockoutPointsKeys(p: Prediction, r: TournamentResults)
    ensures KnockoutPointsMap(p, r, AllSlots).Keys == p.knockoutPredictions.Keys * r.knockoutResults.Keys
    ensures GroupPointsMap(p, r, AllGroups).Keys == set g: Group | g in AllGroups
  {
    AllSlotsEnumerates();
  }

  /** The loop over one group's predicted qualifiers. */
  method ScoreGroup(userPrediction: seq<Team>, actualQualified: seq<Team>) returns (groupScore: int)
    ensures groupScore == GroupScore(userPrediction, actualQualified)
  {
    groupScore := 0;
    var index := 0;
    while index < |userPrediction|
      invariant 0 <= index <= |userPrediction|
      invariant groupScore == GroupScore(userPrediction[..index], actualQualified)
    {
      var team := userPrediction[index];
      var isQualified := team in actualQualified;
      var correctPosition := index < |actualQualified| && actualQualified[index] == team;
      if isQualified {
        groupScore := groupScore + 2;
        if correctPosition {
          groupScore := groupScore + 1;
        }
      }
      assert userPrediction[..index + 1][..index] == userPrediction[..index];
      index := index + 1;
    }
    assert userPrediction[..index] == userPrediction;
  }

  /** The scoring of one match, bonus after bonus. */
  method ScoreMatch(matchId: string, userPrediction: KnockoutMatch, actualResult: KnockoutResult)
    returns (matchScore: int)
    ensures matchScore == MatchScore(matchId, userPrediction, actualResult)
  {
    var basePoints := BasePoints(MatchPhase(matchId));
    var winnerCorrect := userPrediction.winner == actualResult.winner;
    matchScore := 0;
    if winnerCorrect {
      matchScore := matchScore + basePoints;
    }
    if userPrediction.regularTime1 == actualResult.regularTime1 && userPrediction.regularTime2 == actualResult.regularTime2 {
      matchScore := matchScore + basePoints / 2;
    }
    if userPrediction.wentToExtraTime == actualResult.wentToExtraTime.GetOr(false) && actualResult.wentToExtraTime == Some(true) {
      matchScore := matchScore + 1;
    }
    if userPrediction.penaltyWinner == actualResult.penaltyWinner.GetOr("") && actualResult.penaltyWinner.GetOr("") != "" {
      matchScore := matchScore + 2;
    }
    if matchId == "final" && winnerCorrect {
      matchScore := matchScore + 5;
    }
  }

  /** One more group adds its points to the total and its entry to the map. */
  lemma GroupStep(p: Prediction, r: TournamentResults, i: nat)
    requires i < |AllGroups|
    ensures GroupTotal(p, r, AllGroups[..i + 1]) == GroupTotal(p, r, AllGroups[..i]) + GroupPoints(p, r, AllGroups[i])
    ensures GroupPointsMap(p, r, AllGroups[..i + 1]) ==
      GroupPointsMap(p, r, AllGroups[..i])[AllGroups[i] := GroupPoints(p, r, AllGroups[i])]
  {
    assert AllGroups[..i + 1] == AllGroups[..i] + [AllGroups[i]];
    assert AllGroups[..i + 1][..i] == AllGroups[..i];
  }

  /** The effect's first loop: every group A-H in order. */
  method ScoreGroups(prediction: Prediction, r: TournamentResults) returns (groupPoints: map<Group, int>, totalPoints: int)
    ensures groupPoints == GroupPointsMap(prediction, r, AllGroups)
    ensures totalPoints == GroupTotal(prediction, r, AllGroups)
  {
    groupPoints := map[];
    totalPoints := 0;
    var i := 0;
    while i < |AllGroups|
      invariant 0 <= i <= |AllGroups|
      invariant groupPoints == GroupPointsMap(prediction, r, AllGroups[..i])
      invariant totalPoints == GroupTotal(prediction, r, AllGroups[..i])
    {
      var group := AllGroups[i];
      GroupStep(prediction, r, i);
      var groupScore := ScoreGroup(ListOr(prediction.groupPredictions, group), ListOr(r.groupResults, group));
      groupPoints := groupPoints[group := groupScore];
      totalPoints := totalPoints + groupScore;
      i := i + 1;
    }
    assert AllGroups[..i] == AllGroups;
  }

  /** One more slot adds its points to the total and, if scored, its entry to the map. */
  lemma KnockoutStep(p: Prediction, r: TournamentResults, k: nat)
    requires k < |AllSlots|
    ensures KnockoutTotal(p, r, AllSlots[..k + 1]) == KnockoutTotal(p, r, AllSlots[..k]) + SlotPoints(p, r, AllSlots[k])
    ensures KnockoutPointsMap(p, r, AllSlots[..k + 1]) ==
      if AllSlots[k] in p.knockoutPredictions && AllSlots[k] in r.knockoutResults
      then KnockoutPointsMap(p, r, AllSlots[..k])[AllSlots[k] := SlotPoints(p, r, AllSlots[k])]
      else KnockoutPointsMap(p, r, AllSlots[..k])
  {
    assert AllSlots[..k + 1] == AllSlots[..k] + [AllSlots[k]];
    assert AllSlots[..k + 1][..k] == AllSlots[..k];
  }

  /** The effect's second loop: the predicted slots, skipping those without a result. */
  method ScoreKnockout(prediction: Prediction, r: TournamentResults) returns (knockoutPoints: map<Slot, int>, knockoutTotal: int)
    ensures knockoutPoints == KnockoutPointsMap(prediction, r, AllSlots)
    ensures knockoutTotal == KnockoutTotal(prediction, r, AllSlots)
  {
    knockoutPoints := map[];
    knockoutTotal := 0;
    var k := 0;
    while k < |AllSlots|
      invariant 0 <= k <= |AllSlots|
      invariant knockoutPoints == KnockoutPointsMap(prediction, r, AllSlots[..k])
      invariant knockoutTotal == KnockoutTotal(prediction, r, AllSlots[..k])
    {
      var matchId := AllSlots[k];
      KnockoutStep(prediction, r, k);
      if matchId in prediction.knockoutPredictions && matchId in r.knockoutResults {
        var matchScore := ScoreMatch(SlotId(matchId), prediction.knockoutPredictions[matchId], r.knockoutResults[matchId]);
        knockoutPoints := knockoutPoints[matchId := matchScore];
        knockoutTotal := knockoutTotal + matchScore;
      }
      k := k + 1;
    }
    assert AllSlots[..k] == AllSlots;
  }

  /** The analysis effect: nothing while no results are loaded; otherwise the groups
      A-H in order, then the predicted slots that have an official result. */
  method Analyze(prediction: Prediction, results: Option<TournamentResults>) returns (analysis: Option<Analysis>)
    ensures results.None? ==> analysis.None?
    ensures results.Some? ==> analysis == Some(Analysis(
      GroupPointsMap(prediction, results.value, AllGroups),
      KnockoutPointsMap(prediction, results.value, AllSlots),
      TotalPoints(prediction, results.value)))
  {
    if results.None? {
      return None;
    }
    var groupPoints, totalPoints := ScoreGroups(prediction, results.value);
    var knockoutPoints, knockoutTotal := ScoreKnockout(prediction, results.value);
    totalPoints := totalPoints + knockoutTotal;
    analysis := Some(Analysis(groupPoints, knockoutPoints, totalPoints));
  }
}
