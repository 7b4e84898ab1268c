/** components/match-prediction.tsx: the score entry card of one predicted knockout
    match. Each score field keeps a digits-only string and a confirmation flag; a
    prediction is emitted only for two confirmed, non-empty, parseable scores. */
module MatchPrediction {
  import opened Types
  import opened Strings
  import opened Lists
  import AdminPanelSecure

  /** handleScoreInput: every character that is not a digit is removed, so a
      non-empty result always parses to the non-negative value of its digits. */
  function HandleScoreInput(value: string): (clean: string)
    ensures AllDigits(clean) && |clean| <= |value|
    ensures AllDigits(value) ==> clean == value
    ensures clean != "" ==> ParseInt(clean) == Some(DigitsValue(clean))
  {
    DigitsOnlyKeepsDigitsIf(value);
    var clean := DigitsOnly(value);
    if clean != "" then ParseIntOfDigits(clean); clean else clean
  }

  lemma DigitsOnlyKeepsDigitsIf(value: string)
    ensures AllDigits(value) ==> DigitsOnly(value) == value
  {
    if AllDigits(value) {
      DigitsOnlyKeepsDigits(value);
    }
  }

  /** The two scores updatePrediction reads: none unless both fields are confirmed and
      non-empty and both parse to non-negative integers. */
  function ConfirmedScores(regularTime1: string, regularTime2: string,
                           score1Confirmed: bool, score2Confirmed: bool): (o: Option<(int, int)>)
    ensures o.Some? ==> score1Confirmed && score2Confirmed && regularTime1 != "" && regularTime2 != ""
    ensures o.Some? ==> ParseInt(regularTime1) == Some(o.value.0) && ParseInt(regularTime2) == Some(o.value.1)
    ensures o.Some? ==> o.value.0 >= 0 && o.value.1 >= 0
    ensures (score1Confirmed && score2Confirmed && regularTime1 != "" && regularTime2 != "" &&
             ParseInt(regularTime1).Some? && ParseInt(regularTime1).value >= 0 &&
             ParseInt(regularTime2).Some? && ParseInt(regularTime2).value >= 0) ==> o.Some?
  {
    if !score1Confirmed || !score2Confirmed || regularTime1 == "" || regularTime2 == "" then None
    else
      var rt1, rt2 := ParseInt(regularTime1), ParseInt(regularTime2);
      if rt1.None? || rt2.None? || rt1.value < 0 || rt2.value < 0 then None
      else Some((rt1.value, rt2.value))
  }

  /** Two confirmed fields holding digits, the only text the score inputs accept,
      always give their decimal values. */
  lemma ConfirmedDigitScores(regularTime1: string, regularTime2: string)
    requires regularTime1 != "" && regularTime2 != "" && AllDigits(regularTime1) && AllDigits(regularTime2)
    ensures ConfirmedScores(regularTime1, regularTime2, true, true) ==
            Some((DigitsValue(regularTime1) as int, DigitsValue(regularTime2) as int))
  {
    ParseIntOfDigits(regularTime1);
    ParseIntOfDigits(regularTime2);
  }

  /** The prediction updatePrediction builds from two accepted scores. A level score
      means extra time and the penalty pick decides ("" when none is picked); otherwise
      the higher score wins whatever the penalty pick, and the pick is cleared only
      when extra time is ticked. */
  function PredictedMatch(team1: Team, team2: Team, rt1: int, rt2: int,
                          wentToExtraTime: bool, penaltyWinner: Team): (m: KnockoutMatch)
    ensures m.team1 == team1 && m.team2 == team2
    ensures m.regularTime1 == rt1 && m.regularTime2 == rt2
    ensures rt1 == rt2 ==> m.wentToExtraTime && m.winner == penaltyWinner && m.penaltyWinner == penaltyWinner
    ensures rt1 != rt2 ==> (m.winner == team1 <==> rt1 > rt2 || team1 == team2)
    ensures rt1 != rt2 ==> m.winner == (if rt1 > rt2 then team1 else team2)
    ensures rt1 != rt2 ==> m.wentToExtraTime == wentToExtraTime
    ensures rt1 != rt2 ==> m.penaltyWinner == (if wentToExtraTime then "" else penaltyWinner)
  {
    var base := KnockoutMatch(team1, team2, rt1, rt2, wentToExtraTime, penaltyWinner, "");
    if rt1 == rt2 then
      base.(wentToExtraTime := true, winner := if Truthy(penaltyWinner) then penaltyWinner else "")
    else
      var decided := base.(winner := if rt1 > rt2 then team1 else team2);
      if wentToExtraTime then decided.(penaltyWinner := "") else decided
  }

  /** isTied: both scores confirmed, non-empty, parseable and equal. For the digit
      text the score fields hold, that is a complete score with equal values. */
  function Tied(regularTime1: string, regularTime2: string,
                score1Confirmed: bool, score2Confirmed: bool): (t: bool)
    ensures t ==> ScoreComplete(regularTime1, regularTime2, score1Confirmed, score2Confirmed)
    ensures t ==> ParseInt(regularTime1).Some? && ParseInt(regularTime1) == ParseInt(regularTime2)
    ensures AllDigits(regularTime1) && AllDigits(regularTime2) ==>
      (t <==> ScoreComplete(regularTime1, regularTime2, score1Confirmed, score2Confirmed) &&
              DigitsValue(regularTime1) == DigitsValue(regularTime2))
  {
    if !score1Confirmed || !score2Confirmed || regularTime1 == "" || regularTime2 == "" then false
    else
      var rt1, rt2 := ParseInt(regularTime1), ParseInt(regularTime2);
      if rt1.None? || rt2.None? then false else rt1.value == rt2.value
  }

  /** isScoreComplete: every score the card can emit is complete, and a complete score
      of digit text can always be emitted. */
  function ScoreComplete(regularTime1: string, regularTime2: string,
                         score1Confirmed: bool, score2Confirmed: bool): (c: bool)
    ensures ConfirmedScores(regularTime1, regularTime2, score1Confirmed, score2Confirmed).Some? ==> c
    ensures c && AllDigits(regularTime1) && AllDigits(regularTime2) ==>
      ConfirmedScores(regularTime1, regularTime2, score1Confirmed, score2Confirmed).Some?
  {
    score1Confirmed && score2Confirmed && regularTime1 != "" && regularTime2 != ""
  }

  /** A tie is only shown for a complete score, and for scores that can be emitted the
      tie shown is exactly the tie of the emitted prediction. */
  lemma TiedAgreesWithEmitted(regularTime1: string, regularTime2: string,
                              score1Confirmed: bool, score2Confirmed: bool)
    ensures Tied(regularTime1, regularTime2, score1Confirmed, score2Confirmed) ==>
            ScoreComplete(regularTime1, regularTime2, score1Confirmed, score2Confirmed)
    ensures var o := ConfirmedScores(regularTime1, regularTime2, score1Confirmed, score2Confirmed);
            o.Some? ==> (Tied(regularTime1, regularTime2, score1Confirmed, score2Confirmed) <==> o.value.0 == o.value.1)
  {
  }

  /** The two outcome rules clear a stale penalty pick under opposite conditions once
      the regular-time scores differ: the results panel clears it when the match did
      not go to extra time, the prediction card when it did. */
  lemma PenaltyClearingDisagrees(current: KnockoutResult, u: AdminPanelSecure.Updates,
                                 m: AdminPanelSecure.Fixture, pick: Team)
    requires u.regularTime1.Some? && u.regularTime2.Some? && u.regularTime1.value != u.regularTime2.value
    requires AdminPanelSecure.Merge(current, u).penaltyWinner == Some(pick) && pick != ""
    ensures var extraTime := AdminPanelSecure.Merge(current, u).wentToExtraTime == Some(true);
      var official := AdminPanelSecure.SecureOutcome(current, u, m);
      var predicted := PredictedMatch(m.team1, m.team2, u.regularTime1.value, u.regularTime2.value, extraTime, pick);
      (official.penaltyWinner == Some(pick) <==> extraTime) &&
      (predicted.penaltyWinner == pick <==> !extraTime)
  {
  }

  /** The card's state for one match. */
  class MatchCard {
    const team1: Team
    const team2: Team
    var regularTime1: string
    var regularTime2: string
    var wentToExtraTime: bool
    var penaltyWinner: Team
    var score1Confirmed: bool
    var score2Confirmed: bool

    /** The initial state from a stored prediction: a stored score of 0 is shown as "0"
        but starts unconfirmed (`!!prediction.regularTime1`). */
    constructor(team1: Team, team2: Team, prediction: Option<KnockoutMatch>)
      ensures this.team1 == team1 && this.team2 == team2
      ensures prediction.None? ==>
        regularTime1 == "" && regularTime2 == "" && !wentToExtraTime && penaltyWinner == "" &&
        !score1Confirmed && !score2Confirmed
      ensures prediction.Some? ==>
        regularTime1 == IntToString(prediction.value.regularTime1) &&
        regularTime2 == IntToString(prediction.value.regularTime2) &&
        wentToExtraTime == prediction.value.wentToExtraTime &&
        penaltyWinner == prediction.value.penaltyWinner &&
        (score1Confirmed <==> prediction.value.regularTime1 != 0) &&
        (score2Confirmed <==> prediction.value.regularTime2 != 0)
    {
      this.team1 := team1;
      this.team2 := team2;
      if prediction.Some? {
        var p := prediction.value;
        regularTime1 := IntToString(p.regularTime1);
        regularTime2 := IntToString(p.regularTime2);
        wentToExtraTime := p.wentToExtraTime;
        penaltyWinner := p.penaltyWinner;
        score1Confirmed := p.regularTime1 != 0;
        score2Confirmed := p.regularTime2 != 0;
      } else {
        regularTime1, regularTime2 := "", "";
        wentToExtraTime := false;
        penaltyWinner := "";
        score1Confirmed, score2Confirmed := false, false;
      }
    }

    function IsTied(): bool
      reads this
    {
      Tied(regularTime1, regularTime2, score1Confirmed, score2Confirmed)
    }

    function IsScoreComplete(): bool
      reads this
    {
      ScoreComplete(regularTime1, regularTime2, score1Confirmed, score2Confirmed)
    }

    /** Typing in the first score field keeps only its digits and withdraws its confirmation. */
    method HandleScore1Change(value: string)
      modifies this
      ensures regularTime1 == HandleScoreInput(value) && !score1Confirmed
      ensures regularTime2 == old(regularTime2) && score2Confirmed == old(score2Confirmed)
      ensures wentToExtraTime == old(wentToExtraTime) && penaltyWinner == old(penaltyWinner)
    {
      regularTime1 := HandleScoreInput(value);
      score1Confirmed := false;
    }

    method HandleScore2Change(value: string)
      modifies this
      ensures regularTime2 == HandleScoreInput(value) && !score2Confirmed
      ensures regularTime1 == old(regularTime1) && score1Confirmed == old(score1Confirmed)
      ensures wentToExtraTime == old(wentToExtraTime) && penaltyWinner == old(penaltyWinner)
    {
      regularTime2 := HandleScoreInput(value);
      score2Confirmed := false;
    }

    /** Enter confirms the first score only when the field is not empty. */
    method HandleScore1KeyDown(key: string)
      modifies this
      ensures score1Confirmed == (old(score1Confirmed) || (key == "Enter" && regularTime1 != ""))
      ensures regularTime1 == old(regularTime1) && regularTime2 == old(regularTime2)
      ensures score2Confirmed == old(score2Confirmed)
      ensures wentToExtraTime == old(wentToExtraTime) && penaltyWinner == old(penaltyWinner)
    {
      if key == "Enter" && regularTime1 != "" {
        score1Confirmed := true;
      }
    }

    method HandleScore2KeyDown(key: string)
      modifies this
      ensures score2Confirmed == (old(score2Confirmed) || (key == "Enter" && regularTime2 != ""))
      ensures regularTime1 == old(regularTime1) && regularTime2 == old(regularTime2)
      ensures score1Confirmed == old(score1Confirmed)
      ensures wentToExtraTime == old(wentToExtraTime) && penaltyWinner == old(penaltyWinner)
    {
      if key == "Enter" && regularTime2 != "" {
        score2Confirmed := true;
      }
    }

    /** Leaving the first score field confirms it when it is not empty. */
    method HandleScore1Blur()
      modifies this
      ensures score1Confirmed == (old(score1Confirmed) || regularTime1 != "")
      ensures regularTime1 == old(regularTime1) && regularTime2 == old(regularTime2)
      ensures score2Confirmed == old(score2Confirmed)
      ensures wentToExtraTime == old(wentToExtraTime) && penaltyWinner == old(penaltyWinner)
    {
      if regularTime1 != "" {
        score1Confirmed := true;
      }
    }

    method HandleScore2Blur()
      modifies this
      ensures score2Confirmed == (old(score2Confirmed) || regularTime2 != "")
      ensures regularTime1 == old(regularTime1) && regularTime2 == old(regularTime2)
      ensures score1Confirmed == old(score1Confirmed)
      ensures wentToExtraTime == old(wentToExtraTime) && penaltyWinner == old(penaltyWinner)
    {
      if regularTime2 != "" {
        score2Confirmed := true;
      }
    }

    method ToggleExtraTime()
      modifies this
      ensures wentToExtraTime == !old(wentToExtraTime)
      ensures regularTime1 == old(regularTime1) && regularTime2 == old(regularTime2)
      ensures score1Confirmed == old(score1Confirmed) && score2Confirmed == old(score2Confirmed)
      ensures penaltyWinner == old(penaltyWinner)
    {
      wentToExtraTime := !wentToExtraTime;
    }

    /** The penalty winner select. */
    method SelectPenaltyWinner(value: Team)
      modifies this
      ensures penaltyWinner == value
      ensures regularTime1 == old(regularTime1) && regularTime2 == old(regularTime2)
      ensures score1Confirmed == old(score1Confirmed) && score2Confirmed == old(score2Confirmed)
      ensures wentToExtraTime == old(wentToExtraTime)
    {
      penaltyWinner := value;
    }

    /** updatePrediction: the prediction handed to onPredictionChange, if any; on a tie
        the card's own extra-time box is ticked as well. */
    method UpdatePrediction() returns (emitted: Option<KnockoutMatch>)
      modifies this
      ensures var o := ConfirmedScores(old(regularTime1), old(regularTime2), old(score1Confirmed), old(score2Confirmed));
        emitted == (if o.None? then None
                    else Some(PredictedMatch(team1, team2, o.value.0, o.value.1, old(wentToExtraTime), old(penaltyWinner))))
      ensures wentToExtraTime == (old(wentToExtraTime) || (emitted.Some? && emitted.value.regularTime1 == emitted.value.regularTime2))
      ensures regularTime1 == old(regularTime1) && regularTime2 == old(regularTime2)
      ensures score1Confirmed == old(score1Confirmed) && score2Confirmed == old(score2Confirmed)
      ensures penaltyWinner == old(penaltyWinner)
    {
      if !score1Confirmed || !score2Confirmed || regularTime1 == "" || regularTime2 == "" {
        return None;
      }
      var rt1, rt2 := ParseInt(regularTime1), ParseInt(regularTime2);
      if rt1.None? || rt2.None? || rt1.value < 0 || rt2.value < 0 {
        return None;
      }
      var newPrediction := KnockoutMatch(team1, team2, rt1.value, rt2.value, wentToExtraTime, penaltyWinner, "");
      if rt1.value == rt2.value {
        newPrediction := newPrediction.(wentToExtraTime := true);
        wentToExtraTime := true;
        if Truthy(penaltyWinner) {
          newPrediction := newPrediction.(winner := penaltyWinner);
        } else {
          newPrediction := newPrediction.(winner := "");
        }
      } else {
        if rt1.value > rt2.value {
          newPrediction := newPrediction.(winner := team1);
        } else {
          newPrediction := newPrediction.(winner := team2);
        }
        if wentToExtraTime {
          newPrediction := newPrediction.(penaltyWinner := "");
        }
      }
      emitted := Some(newPrediction);
    }
  }
}
