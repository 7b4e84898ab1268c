/** components/admin-panel-simple.tsx: the earlier results panel. A click on a team
    toggles it in its group's qualifier list, and every change replaces the held
    results and the browser's "tournamentResults" item. */
module AdminPanelSimple {
  import opened Types
  import opened Lists

  /** The group button's click: a qualified team is dropped, a new team is added while
      fewer than two are qualified, and otherwise nothing is saved (None). */
  function ToggleQualifier(current: seq<Team>, team: Team): (r: Option<seq<Team>>)
    ensures team in current ==> r == Some(Without(current, team))
    ensures team !in current && |current| < 2 ==> r == Some(current + [team])
    ensures team !in current && |current| >= 2 ==> r == None
  {
    if team in current then Some(Without(current, team))
    else if |current| < 2 then Some(current + [team])
    else None
  }

  /** A toggle never makes a list of at most two distinct teams longer than two or
      gives it a duplicate, and a saved list holds the team exactly when the old one
      did not. */
  lemma ToggleKeepsQualifiers(current: seq<Team>, team: Team)
    requires |current| <= 2 && NoDuplicates(current)
    ensures ToggleQualifier(current, team).Some? ==>
      var r := ToggleQualifier(current, team).value;
      |r| <= 2 && NoDuplicates(r) && (team in r <==> team !in current) &&
      forall t :: t != team ==> (t in r <==> t in current)
  {
    if team in current {
      var r := Without(current, team);
      WithoutKeepsDistinct(current, team);
      forall t | t != team ensures t in r <==> t in current {
        assert multiset(r)[t] == multiset(current)[t];
      }
      assert |r| < |current| by {
        assert multiset(current)[team] > 0;
      }
    }
  }

  /** updateGroupResult: the group's list is replaced; nothing else changes. */
  function WithGroupResult(r: TournamentResults, g: Group, qualified: seq<Team>): (r': TournamentResults)
    ensures g in r'.groupResults && r'.groupResults[g] == qualified
    ensures forall h :: h != g ==> (h in r'.groupResults <==> h in r.groupResults)
    ensures forall h :: h != g && h in r.groupResults ==> r'.groupResults[h] == r.groupResults[h]
    ensures r'.knockoutResults == r.knockoutResults && r'.currentPhase == r.currentPhase
  {
    r.(groupResults := r.groupResults[g := qualified])
  }

  /** updateKnockoutResult: the slot's result is replaced; nothing else changes. */
  function WithKnockoutResult(r: TournamentResults, s: Slot, result: KnockoutResult): (r': TournamentResults)
    ensures s in r'.knockoutResults && r'.knockoutResults[s] == result
    ensures forall t :: t != s ==> (t in r'.knockoutResults <==> t in r.knockoutResults)
    ensures forall t :: t != s && t in r.knockoutResults ==> r'.knockoutResults[t] == r.knockoutResults[t]
    ensures r'.groupResults == r.groupResults && r'.currentPhase == r.currentPhase
  {
    r.(knockoutResults := r.knockoutResults[s := result])
  }

  /** Every recorded qualifier list holds at most two distinct teams. */
  ghost predicate QualifiersWellFormed(r: TournamentResults) {
    forall g :: g in r.groupResults ==> |r.groupResults[g]| <= 2 && NoDuplicates(r.groupResults[g])
  }

  /** The empty results are well formed, and a toggle keeps them so. */
  lemma ToggleKeepsWellFormed(r: TournamentResults, g: Group, team: Team)
    requires QualifiersWellFormed(r)
    ensures QualifiersWellFormed(EmptyResults)
    ensures ToggleQualifier(ListOr(r.groupResults, g), team).Some? ==>
      QualifiersWellFormed(WithGroupResult(r, g, ToggleQualifier(ListOr(r.groupResults, g), team).value))
  {
    ToggleKeepsQualifiers(ListOr(r.groupResults, g), team);
  }

  /** The panel's state: the results it shows and the stored "tournamentResults" item. */
  class SimpleAdminPanel {
    var results: TournamentResults
    var stored: Option<TournamentResults>

    /** The mount effect loads the stored results, if there are any. */
    constructor(stored: Option<TournamentResults>)
      ensures results == stored.GetOr(EmptyResults)
      ensures this.stored == stored
    {
      results := stored.GetOr(EmptyResults);
      this.stored := stored;
    }

    method SaveResults(newResults: TournamentResults)
      modifies this
      ensures results == newResults && stored == Some(newResults)
    {
      results := newResults;
      stored := Some(newResults);
    }

    method UpdateGroupResult(g: Group, qualified: seq<Team>)
      modifies this
      ensures results == WithGroupResult(old(results), g, qualified) && stored == Some(results)
    {
      SaveResults(WithGroupResult(results, g, qualified));
    }

    method UpdateKnockoutResult(s: Slot, result: KnockoutResult)
      modifies this
      ensures results == WithKnockoutResult(old(results), s, result) && stored == Some(results)
    {
      SaveResults(WithKnockoutResult(results, s, result));
    }

    /** The click handler of a team's button in group `g`. */
    method ClickTeam(g: Group, team: Team)
      modifies this
      ensures ToggleQualifier(ListOr(old(results).groupResults, g), team).None? ==>
        results == old(results) && stored == old(stored)
      ensures ToggleQualifier(ListOr(old(results).groupResults, g), team).Some? ==>
        results == WithGroupResult(old(results), g, ToggleQualifier(ListOr(old(results).groupResults, g), team).value) &&
        stored == Some(results)
      ensures old(QualifiersWellFormed(results)) ==> QualifiersWellFormed(results)
    {
      if old(QualifiersWellFormed(results)) {
        ToggleKeepsWellFormed(results, g, team);
      }
      var current := ListOr(results.groupResults, g);
      if team in current {
        UpdateGroupResult(g, Without(current, team));
      } else if |current| < 2 {
        UpdateGroupResult(g, current + [team]);
      }
    }
  }
}
