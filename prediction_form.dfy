/** components/prediction-form.tsx: the earlier version of the prediction form. Its
    selection, bracket and completeness rules are the ones of the current form; it
    differs in how it saves (it appends to the browser's "predictions" item without
    looking for an existing id) and in how it resets after a save (the group record
    becomes empty rather than eight empty groups). */
module PredictionForm {
  import opened Types
  import opened Strings
  import opened PredictionFormSimple
  import StorageService

  /** The group record this form installs after a save: no keys at all. */
  function ResetGroups(): (groups: map<Group, seq<Team>>)
    ensures |groups| == 0
  {
    map[]
  }

  /** After a save the form is back at the group step, and the empty record counts as
      a complete group step, so the "continue" button shows at once. Pressing it renders
      the knockout step, whose bracket generation throws at the first read of a group's
      picks (what RenderKnockoutMatches returns from this record). The submit button
      lives in that step, so the user never reaches it; submitPrediction would throw
      from this state too, rather than refuse it. Picking two teams in every group
      before continuing installs every key again and avoids the throw. */
  lemma ResetGroupsCrash(kp: map<Slot, KnockoutMatch>, name: string, id: string, timestamp: string)
    requires !AllSpace(name)
    ensures IsGroupPhaseComplete(ResetGroups())
    ensures FormBracket(ResetGroups(), kp) == None
    ensures Submission(name, ResetGroups(), kp, id, timestamp) == Crashed
  {
    TrimBlank(name);
    assert A !in ResetGroups();
  }

  class LegacyForm {
    var playerName: string
    var groupPredictions: map<Group, seq<Team>>
    var knockoutPredictions: map<Slot, KnockoutMatch>
    var currentPhase: FormPhase

    /** The state after the mount effect has installed the initial group record. */
    constructor()
      ensures playerName == "" && groupPredictions == InitialGroups()
      ensures knockoutPredictions == map[] && currentPhase == GroupsStep
    {
      playerName := "";
      groupPredictions := InitialGroups();
      knockoutPredictions := map[];
      currentPhase := GroupsStep;
    }

    method SetPlayerName(name: string)
      modifies this
      ensures playerName == name
      ensures groupPredictions == old(groupPredictions) && knockoutPredictions == old(knockoutPredictions)
      ensures currentPhase == old(currentPhase)
    {
      playerName := name;
    }

    method HandleGroupPrediction(g: Group, team: Team)
      modifies this
      ensures groupPredictions == PickTeam(old(groupPredictions), g, team)
      ensures playerName == old(playerName) && knockoutPredictions == old(knockoutPredictions)
      ensures currentPhase == old(currentPhase)
    {
      groupPredictions := PickTeam(groupPredictions, g, team);
    }

    method HandleKnockoutPrediction(s: Slot, m: KnockoutMatch)
      modifies this
      ensures knockoutPredictions == old(knockoutPredictions)[s := m]
      ensures playerName == old(playerName) && groupPredictions == old(groupPredictions)
      ensures currentPhase == old(currentPhase)
    {
      knockoutPredictions := knockoutPredictions[s := m];
    }

    /** The "continue" button, which is only shown once the group step is complete. */
    method ContinueToKnockout()
      requires IsGroupPhaseComplete(groupPredictions)
      modifies this
      ensures currentPhase == KnockoutStep
      ensures playerName == old(playerName) && groupPredictions == old(groupPredictions)
      ensures knockoutPredictions == old(knockoutPredictions)
    {
      currentPhase := KnockoutStep;
    }

    method BackToGroups()
      modifies this
      ensures currentPhase == GroupsStep
      ensures playerName == old(playerName) && groupPredictions == old(groupPredictions)
      ensures knockoutPredictions == old(knockoutPredictions)
    {
      currentPhase := GroupsStep;
    }

    /** The knockout step is rendered from the generated bracket; None is the throw. */
    method RenderKnockoutMatches() returns (matches: Option<map<Slot, Matchup>>)
      requires currentPhase == KnockoutStep && IsGroupPhaseComplete(groupPredictions)
      ensures matches == FormBracket(groupPredictions, knockoutPredictions)
    {
      matches := GenerateAllKnockoutMatches(groupPredictions, knockoutPredictions);
    }

    /** submitPrediction: the same three refusals as the current form; a saved
        prediction is appended to the stored list, duplicate ids included, and the form
        is reset with an empty group record. */
    method SubmitPrediction(store: StorageService.LocalStorageService, now: nat, timestamp: string)
      returns (outcome: SubmitOutcome)
      modifies this, store
      ensures outcome == Submission(old(playerName), old(groupPredictions), old(knockoutPredictions),
                                    NatToString(now), timestamp)
      ensures !outcome.Saved? ==> unchanged(this) && unchanged(store)
      ensures outcome.Saved? ==>
        playerName == "" && groupPredictions == ResetGroups() &&
        knockoutPredictions == map[] && currentPhase == GroupsStep
      ensures outcome.Saved? ==>
        store.predictions == Some(old(store.StoredPredictions()) + [outcome.p])
      ensures store.results == old(store.results)
    {
      if Trim(playerName) == "" {
        return NameMissing;
      }
      if !IsGroupPhaseComplete(groupPredictions) {
        return GroupsIncomplete;
      }
      var complete := KnockoutCompleteCheck(groupPredictions, knockoutPredictions);
      if complete.None? {
        return Crashed;
      }
      if !complete.value {
        return KnockoutIncomplete;
      }
      var prediction := Prediction(NatToString(now), Trim(playerName), groupPredictions,
                                   knockoutPredictions, timestamp, 0);
      var existingPredictions := store.StoredPredictions();
      existingPredictions := existingPredictions + [prediction];
      store.predictions := Some(existingPredictions);
      playerName := "";
      groupPredictions := ResetGroups();
      knockoutPredictions := map[];
      currentPhase := GroupsStep;
      outcome := Saved(prediction);
    }
  }
}
