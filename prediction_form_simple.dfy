/** components/prediction-form-simple.tsx: the form in which a player picks two
    qualifiers per group, then predicts every knockout match of the bracket that those
    picks generate, and submits the prediction to the store. The selection, bracket,
    completeness and validation rules defined here are also those of
    components/prediction-form.tsx, whose copies are identical. */
module PredictionFormSimple {
  import opened Types
  import opened Lists
  import opened Strings
  import opened TournamentData
  import StorageService

  /** handleGroupPrediction's list rule: a picked team is unpicked; otherwise it is
      added while fewer than two are picked, and replaces the second pick after that. */
  function ToggleGroupPick(current: seq<Team>, team: Team): (r: seq<Team>)
    ensures team in r <==> team !in current
    ensures forall t :: t in r && t != team ==> t in current
    ensures team !in current && |current| < 2 ==> r == current + [team]
    ensures team !in current && |current| >= 2 ==> r == [current[0], team]
    ensures |current| <= 2 ==> |r| <= 2
    ensures NoDuplicates(current) ==> NoDuplicates(r)
  {
    if team in current then
      var r := Without(current, team);
      assert forall t :: t in r ==> t in current by {
        forall t | t in r ensures t in current {
          assert multiset(r)[t] > 0;
        }
      }
      assert NoDuplicates(current) ==> NoDuplicates(r) by {
        if NoDuplicates(current) {
          WithoutKeepsDistinct(current, team);
        }
      }
      r
    else if |current| < 2 then
      current + [team]
    else
      [current[0], team]
  }

  /** Unpicking keeps the other picks in their order. */
  lemma UnpickKeepsOrder(current: seq<Team>, team: Team)
    requires team in current
    ensures ToggleGroupPick(current, team) == Without(current, team)
  {
  }

  /** The group record after handleGroupPrediction: only the clicked group changes. */
  function PickTeam(groups: map<Group, seq<Team>>, g: Group, team: Team): (groups': map<Group, seq<Team>>)
    ensures g in groups' && groups'[g] == ToggleGroupPick(ListOr(groups, g), team)
    ensures forall h :: h != g ==> (h in groups' <==> h in groups)
    ensures forall h :: h != g && h in groups ==> groups'[h] == groups[h]
  {
    groups[g := ToggleGroupPick(ListOr(groups, g), team)]
  }

  /** Every group key is present and holds at most two distinct picks. */
  ghost predicate ValidGroups(groups: map<Group, seq<Team>>) {
    forall g: Group :: g in groups && |groups[g]| <= 2 && NoDuplicates(groups[g])
  }

  /** Clicking a team keeps every group at most two distinct picks. */
  lemma PickTeamValid(groups: map<Group, seq<Team>>, g: Group, team: Team)
    requires ValidGroups(groups)
    ensures ValidGroups(PickTeam(groups, g, team))
  {
  }

  /** The record the mount effect and resetForm install: every group with no picks. */
  function InitialGroups(): (groups: map<Group, seq<Team>>)
    ensures forall g: Group :: g in groups && groups[g] == []
  {
    AllGroupsEnumerates();
    map g | g in AllGroups :: []
  }

  /** isGroupPhaseComplete: every group key present holds exactly two picks. A record
      with no keys passes vacuously; one holding every key passes exactly when each
      group has its two picks. */
  predicate IsGroupPhaseComplete(groups: map<Group, seq<Team>>): (c: bool)
    ensures groups == map[] ==> c
    ensures ValidGroups(groups) ==> (c <==> Full(groups))
  {
    forall g :: g in groups ==> |groups[g]| == 2
  }

  /** One generated knockout match (its phase label is not modelled). */
  datatype Matchup = Matchup(team1: Team, team2: Team)

  /** `knockoutPredictions[slot]?.winner`, with "" for undefined. */
  function PredictedWinner(kp: map<Slot, KnockoutMatch>, s: Slot): Team {
    if s in kp then kp[s].winner else ""
  }

  /** The side of a predicted match that is not its predicted winner. The results
      panel computes the same thing on its own record type (AdminPanelSecure.Loser);
      the two components keep separate copies of this rule, and so does the model. */
  function PredictedLoser(m: KnockoutMatch): (t: Team)
    ensures t == m.team1 || t == m.team2
    ensures m.winner == m.team1 ==> t == m.team2
    ensures m.winner != m.team1 ==> t == m.team1
  {
    if m.winner == m.team1 then m.team2 else m.team1
  }

  /** The entry of one slot in a bracket generated from complete group picks: the
      Round of 16 unconditionally, the later slots when both predicted feeder winners
      are non-empty, third place when both semifinals are predicted and both losers
      are non-empty. */
  function FormSlot(groups: map<Group, seq<Team>>, kp: map<Slot, KnockoutMatch>, s: Slot): Option<Matchup>
    requires forall g: Group :: g in groups && |groups[g]| == 2
  {
    match s
    case R16(i) =>
      var (a, b) := R16Pairing(i);
      Some(Matchup(groups[a.group][a.place - 1], groups[b.group][b.place - 1]))
    case Third =>
      if SF(1) in kp && SF(2) in kp then
        var l1, l2 := PredictedLoser(kp[SF(1)]), PredictedLoser(kp[SF(2)]);
        if Truthy(l1) && Truthy(l2) then Some(Matchup(l1, l2)) else None
      else None
    case QF(j) => Cascade(kp, R16(2 * j - 1), R16(2 * j))
    case SF(k) => Cascade(kp, QF(2 * k - 1), QF(2 * k))
    case Final => Cascade(kp, SF(1), SF(2))
  }

  function Cascade(kp: map<Slot, KnockoutMatch>, a: Slot, b: Slot): Option<Matchup> {
    var w1, w2 := PredictedWinner(kp, a), PredictedWinner(kp, b);
    if Truthy(w1) && Truthy(w2) then Some(Matchup(w1, w2)) else None
  }

  /** generateAllKnockoutMatches: {} while the group picks are incomplete; None when a
      group key is missing, where reading `groupPredictions[G][0]` throws a TypeError;
      otherwise the record of every emitted slot. */
  ghost function FormBracket(groups: map<Group, seq<Team>>, kp: map<Slot, KnockoutMatch>): (b: Option<map<Slot, Matchup>>)
    ensures b.None? <==> IsGroupPhaseComplete(groups) && exists g: Group :: g !in groups
    ensures b.Some? ==> forall s :: s in b.value ==> Full(groups)
  {
    if !IsGroupPhaseComplete(groups) then Some(map[])
    else if !(forall g: Group :: g in groups) then None
    else Some(map s | s in AllSlots && FormSlot(groups, kp, s).Some? :: FormSlot(groups, kp, s).value)
  }

  /** The slot's entry of a generated record, if any. */
  function Entry(m: map<Slot, Matchup>, s: Slot): Option<Matchup> {
    if s in m then Some(m[s]) else None
  }

  /** Every group key is present with exactly two picks: the record is complete and
      no read of it throws. */
  ghost predicate Full(groups: map<Group, seq<Team>>) {
    forall g: Group :: g in groups && |groups[g]| == 2
  }

  /** The record after the generator's assignments to the first `n` slots, in
      bracket order. */
  ghost function Built(groups: map<Group, seq<Team>>, kp: map<Slot, KnockoutMatch>, n: nat): map<Slot, Matchup>
    requires Full(groups) && n <= |AllSlots|
  {
    if n == 0 then map[]
    else
      var m := Built(groups, kp, n - 1);
      var e := FormSlot(groups, kp, AllSlots[n - 1]);
      if e.Some? then m[AllSlots[n - 1] := e.value] else m
  }

  /** The first `n` slots' entries are in the record, and nothing else. */
  lemma {:induction false} BuiltEntries(groups: map<Group, seq<Team>>, kp: map<Slot, KnockoutMatch>, n: nat)
    requires Full(groups) && n <= |AllSlots|
    ensures forall t :: Entry(Built(groups, kp, n), t) == if t in AllSlots[..n] then FormSlot(groups, kp, t) else None
  {
    if n > 0 {
      BuiltEntries(groups, kp, n - 1);
      AllSlotsEnumerates();
      assert AllSlots[..n] == AllSlots[..n - 1] + [AllSlots[n - 1]];
      assert AllSlots[n - 1] !in AllSlots[..n - 1];
    }
  }

  /** generateAllKnockoutMatches, one slot assignment after another. */
  method GenerateAllKnockoutMatches(groups: map<Group, seq<Team>>, kp: map<Slot, KnockoutMatch>)
    returns (matches: Option<map<Slot, Matchup>>)
    ensures matches == FormBracket(groups, kp)
  {
    if !IsGroupPhaseComplete(groups) {
      return Some(map[]);
    }
    if !(A in groups && B in groups && C in groups && D in groups &&
         E in groups && F in groups && G in groups && H in groups) {
      assert !(forall g: Group :: g in groups);
      return None;
    }
    assert Full(groups) by {
      forall g: Group ensures g in groups && |groups[g]| == 2 {
        match g
        case A => case B => case C => case D => case E => case F => case G => case H =>
      }
    }
    ghost var n: nat := 0;
    var m := PutRoundOf16(groups, kp, n);
    n := n + 8;
    m := PutQuarterFinals(m, groups, kp, n);
    n := n + 4;
    m := PutSemiFinals(m, groups, kp, n);
    n := n + 2;
    var third := None;
    if SF(1) in kp && SF(2) in kp {
      var sf1Loser := if kp[SF(1)].winner == kp[SF(1)].team1 then kp[SF(1)].team2 else kp[SF(1)].team1;
      var sf2Loser := if kp[SF(2)].winner == kp[SF(2)].team1 then kp[SF(2)].team2 else kp[SF(2)].team1;
      if Truthy(sf1Loser) && Truthy(sf2Loser) {
        third := Some(Matchup(sf1Loser, sf2Loser));
      }
    }
    m := Put(m, groups, kp, Third, third, n);
    n := n + 1;
    m := Put(m, groups, kp, Final, Cascade(kp, SF(1), SF(2)), n);
    n := n + 1;
    BracketRecordMatches(groups, kp, m, n);
    matches := Some(m);
  }

  /** The eight Round of 16 assignments, each from a group-pick pair: group winners
      against runners-up, then runners-up against group winners. */
  method PutRoundOf16(groups: map<Group, seq<Team>>, kp: map<Slot, KnockoutMatch>, ghost n: nat)
    returns (m: map<Slot, Matchup>)
    requires Full(groups) && n == 0
    ensures m == Built(groups, kp, n + 8)
  {
    m := PutWinnersFirst(map[], groups, kp, n);
    m := PutRunnersUpFirst(m, groups, kp, n + 4);
  }

  method PutWinnersFirst(m: map<Slot, Matchup>, groups: map<Group, seq<Team>>, kp: map<Slot, KnockoutMatch>, ghost n: nat)
    returns (m': map<Slot, Matchup>)
    requires Full(groups) && n == 0 && m == Built(groups, kp, n)
    ensures m' == Built(groups, kp, n + 4)
  {
    m' := m;
    ghost var k := n;
    m' := Put(m', groups, kp, R16(1), Some(Matchup(groups[A][0], groups[B][1])), k);
    k := k + 1;
    m' := Put(m', groups, kp, R16(2), Some(Matchup(groups[C][0], groups[D][1])), k);
    k := k + 1;
    m' := Put(m', groups, kp, R16(3), Some(Matchup(groups[E][0], groups[F][1])), k);
    k := k + 1;
    m' := Put(m', groups, kp, R16(4), Some(Matchup(groups[G][0], groups[H][1])), k);
    k := k + 1;
  }

  method PutRunnersUpFirst(m: map<Slot, Matchup>, groups: map<Group, seq<Team>>, kp: map<Slot, KnockoutMatch>, ghost n: nat)
    returns (m': map<Slot, Matchup>)
    requires Full(groups) && n == 4 && m == Built(groups, kp, n)
    ensures m' == Built(groups, kp, n + 4)
  {
    m' := m;
    ghost var k := n;
    m' := Put(m', groups, kp, R16(5), Some(Matchup(groups[A][1], groups[B][0])), k);
    k := k + 1;
    m' := Put(m', groups, kp, R16(6), Some(Matchup(groups[C][1], groups[D][0])), k);
    k := k + 1;
    m' := Put(m', groups, kp, R16(7), Some(Matchup(groups[E][1], groups[F][0])), k);
    k := k + 1;
    m' := Put(m', groups, kp, R16(8), Some(Matchup(groups[G][1], groups[H][0])), k);
    k := k + 1;
  }

  /** The four quarter-final assignments, each guarded by two Round of 16 winners. */
  method PutQuarterFinals(m: map<Slot, Matchup>, groups: map<Group, seq<Team>>, kp: map<Slot, KnockoutMatch>, ghost n: nat)
    returns (m': map<Slot, Matchup>)
    requires Full(groups) && n == 8 && m == Built(groups, kp, n)
    ensures m' == Built(groups, kp, n + 4)
  {
    m' := m;
    ghost var k := n;
    m' := Put(m', groups, kp, QF(1), Cascade(kp, R16(1), R16(2)), k);
    k := k + 1;
    m' := Put(m', groups, kp, QF(2), Cascade(kp, R16(3), R16(4)), k);
    k := k + 1;
    m' := Put(m', groups, kp, QF(3), Cascade(kp, R16(5), R16(6)), k);
    k := k + 1;
    m' := Put(m', groups, kp, QF(4), Cascade(kp, R16(7), R16(8)), k);
    k := k + 1;
  }

  /** The two semifinal assignments, each guarded by two quarter-final winners. */
  method PutSemiFinals(m: map<Slot, Matchup>, groups: map<Group, seq<Team>>, kp: map<Slot, KnockoutMatch>, ghost n: nat)
    returns (m': map<Slot, Matchup>)
    requires Full(groups) && n == 12 && m == Built(groups, kp, n)
    ensures m' == Built(groups, kp, n + 2)
  {
    m' := m;
    ghost var k := n;
    m' := Put(m', groups, kp, SF(1), Cascade(kp, QF(1), QF(2)), k);
    k := k + 1;
    m' := Put(m', groups, kp, SF(2), Cascade(kp, QF(3), QF(4)), k);
    k := k + 1;
  }

  /** One assignment `matches[s] = e` of the generator, skipped when `e` is None: the
      record then holds the entries of one more slot. */
  method Put(m: map<Slot, Matchup>, groups: map<Group, seq<Team>>, kp: map<Slot, KnockoutMatch>,
             s: Slot, e: Option<Matchup>, ghost n: nat)
    returns (m': map<Slot, Matchup>)
    requires Full(groups) && n < |AllSlots| && m == Built(groups, kp, n)
    requires AllSlots[n] == s && e == FormSlot(groups, kp, s)
    ensures m' == Built(groups, kp, n + 1)
  {
    m' := if e.Some? then m[s := e.value] else m;
  }

  /** The record built assignment by assignment is the one FormBracket describes. */
  lemma BracketRecordMatches(groups: map<Group, seq<Team>>, kp: map<Slot, KnockoutMatch>, m: map<Slot, Matchup>, n: nat)
    requires Full(groups) && n == |AllSlots| && m == Built(groups, kp, n)
    ensures IsGroupPhaseComplete(groups) && FormBracket(groups, kp) == Some(m)
  {
    BuiltEntries(groups, kp, n);
    assert AllSlots[..n] == AllSlots;
    AllSlotsEnumerates();
    assert forall t :: Entry(m, t) == FormSlot(groups, kp, t);
    RecordIsBracket(groups, kp, m);
  }

  /** A record holding exactly every slot's emitted entry is the generated bracket. */
  lemma RecordIsBracket(groups: map<Group, seq<Team>>, kp: map<Slot, KnockoutMatch>, m: map<Slot, Matchup>)
    requires Full(groups)
    requires forall t :: Entry(m, t) == FormSlot(groups, kp, t)
    ensures IsGroupPhaseComplete(groups) && FormBracket(groups, kp) == Some(m)
  {
    AllSlotsEnumerates();
    var b := map s | s in AllSlots && FormSlot(groups, kp, s).Some? :: FormSlot(groups, kp, s).value;
    forall s ensures (s in m <==> s in b) && (s in m ==> m[s] == b[s]) {
      assert Entry(m, s) == FormSlot(groups, kp, s);
    }
    assert m == b;
  }

  /** isKnockoutComplete's check: all sixteen slot ids, third place included, have a
      non-empty predicted winner, whatever the current bracket holds. */
  predicate IsKnockoutComplete(kp: map<Slot, KnockoutMatch>) {
    forall s :: s in AllSlots ==> s in kp && Truthy(kp[s].winner)
  }
  /** isKnockoutComplete: the bracket is generated first, so a group record that
      makes the generator throw makes this check throw too (None). */
  ghost function KnockoutComplete(groups: map<Group, seq<Team>>, kp: map<Slot, KnockoutMatch>): Option<bool> {
    if FormBracket(groups, kp).None? then None else Some(IsKnockoutComplete(kp))
  }

  method KnockoutCompleteCheck(groups: map<Group, seq<Team>>, kp: map<Slot, KnockoutMatch>) returns (complete: Option<bool>)
    ensures complete == KnockoutComplete(groups, kp)
  {
    var allMatches := GenerateAllKnockoutMatches(groups, kp);
    if allMatches.None? {
      return None;
    }
    complete := Some(IsKnockoutComplete(kp));
  }

  /** With every winner picked, the generated bracket holds every slot but third
      place, and third place exactly when both semifinal losers are non-empty. */
  lemma CompleteKnockoutFillsBracket(groups: map<Group, seq<Team>>, kp: map<Slot, KnockoutMatch>)
    requires Full(groups) && IsKnockoutComplete(kp)
    ensures FormBracket(groups, kp).Some?
    ensures forall s :: s != Third ==> s in FormBracket(groups, kp).value
    ensures Third in FormBracket(groups, kp).value <==>
      Truthy(PredictedLoser(kp[SF(1)])) && Truthy(PredictedLoser(kp[SF(2)]))
  {
    AllSlotsEnumerates();
    assert IsGroupPhaseComplete(groups);
    var m := map s | s in AllSlots && FormSlot(groups, kp, s).Some? :: FormSlot(groups, kp, s).value;
    assert FormBracket(groups, kp) == Some(m);
    forall s | s != Third ensures s in m {
      assert s in AllSlots;
      match s
      case R16(i) =>
      case QF(j) => assert R16(2 * j - 1) in AllSlots && R16(2 * j) in AllSlots;
      case SF(k) => assert QF(2 * k - 1) in AllSlots && QF(2 * k) in AllSlots;
      case Final => assert SF(1) in AllSlots && SF(2) in AllSlots;
    }
    assert Third in AllSlots;
  }

  /** A group record holding every key never makes the generator throw: the bracket is
      empty while a group lacks two picks and holds the whole Round of 16 after. */
  lemma ValidGroupsNeverCrash(groups: map<Group, seq<Team>>, kp: map<Slot, KnockoutMatch>)
    requires ValidGroups(groups)
    ensures FormBracket(groups, kp).Some?
    ensures !IsGroupPhaseComplete(groups) ==> FormBracket(groups, kp) == Some(map[])
    ensures IsGroupPhaseComplete(groups) ==> forall i: Index8 :: R16(i) in FormBracket(groups, kp).value
  {
    if IsGroupPhaseComplete(groups) {
      AllSlotsEnumerates();
      assert Full(groups);
    }
  }

  /** The record the form starts from is incomplete, so the knockout step stays closed. */
  lemma InitialGroupsIncomplete()
    ensures ValidGroups(InitialGroups())
    ensures !IsGroupPhaseComplete(InitialGroups())
  {
    var groups := InitialGroups();
    assert A in groups && groups[A] == [];
  }

  /** getTeamSelectionType: the badge of a team is decided by its first position in the
      group's picks. */
  datatype Pick = FirstPick | SecondPick

  function SelectionType(qualified: seq<Team>, team: Team): (r: Option<Pick>)
    ensures r == Some(FirstPick) <==> |qualified| > 0 && qualified[0] == team
    ensures r == Some(SecondPick) <==> |qualified| > 1 && qualified[1] == team && qualified[0] != team
    ensures r == None <==> team !in qualified[..if |qualified| < 2 then |qualified| else 2]
  {
    if |qualified| > 0 && qualified[0] == team then Some(FirstPick)
    else if |qualified| > 1 && qualified[1] == team then Some(SecondPick)
    else None
  }

  /** hasMadePredictions, which shows the reset button: some group has a pick, some
      knockout match is predicted, or the name has a non-blank character. */
  predicate HasMadePredictions(name: string, groups: map<Group, seq<Team>>, kp: map<Slot, KnockoutMatch>): (h: bool)
    ensures h <==> (exists g :: g in groups && groups[g] != []) || kp != map[] || !AllSpace(name)
  {
    TrimBlank(name);
    (exists g :: g in groups && |groups[g]| > 0) || |kp| > 0 || Trim(name) != ""
  }

  /** After a reset nothing counts as a prediction any more. */
  lemma ResetClearsPredictions()
    ensures !HasMadePredictions("", InitialGroups(), map[])
  {
    assert Trim("") == "" by { TrimBlank(""); }
  }

  datatype FormPhase = GroupsStep | KnockoutStep

  /** The ways submitPrediction ends: one of its three refusals, a TypeError thrown by
      the completeness check, or the saved prediction. */
  datatype SubmitOutcome = NameMissing | GroupsIncomplete | Crashed | KnockoutIncomplete | Saved(p: Prediction)

  /** submitPrediction's decision: the name first, then the group picks, then the
      knockout picks; a saved prediction carries the trimmed name and a zero score. */
  ghost function Submission(name: string, groups: map<Group, seq<Team>>, kp: map<Slot, KnockoutMatch>,
                            id: string, timestamp: string): (o: SubmitOutcome)
    ensures o == Crashed ==> !AllSpace(name) && IsGroupPhaseComplete(groups) && exists g: Group :: g !in groups
    ensures ValidGroups(groups) ==> o != Crashed
  {
    TrimBlank(name);
    assert ValidGroups(groups) ==> FormBracket(groups, kp).Some? by {
      if ValidGroups(groups) {
        ValidGroupsNeverCrash(groups, kp);
      }
    }
    if Trim(name) == "" then NameMissing
    else if !IsGroupPhaseComplete(groups) then GroupsIncomplete
    else match KnockoutComplete(groups, kp)
      case None => Crashed
      case Some(false) => KnockoutIncomplete
      case Some(true) => Saved(Prediction(id, Trim(name), groups, kp, timestamp, 0))
  }

  /** A blank name is refused whatever the picks, and only complete picks are saved. */
  lemma SubmissionGuards(name: string, groups: map<Group, seq<Team>>, kp: map<Slot, KnockoutMatch>,
                         id: string, timestamp: string)
    ensures AllSpace(name) ==> Submission(name, groups, kp, id, timestamp) == NameMissing
    ensures Submission(name, groups, kp, id, timestamp).Saved? ==>
      !AllSpace(name) && IsGroupPhaseComplete(groups) && IsKnockoutComplete(kp) &&
      Submission(name, groups, kp, id, timestamp).p.playerName == Trim(name) &&
      Submission(name, groups, kp, id, timestamp).p.score == 0
  {
    TrimBlank(name);
  }

  /** The form's state: the name field, the picks of both steps, and the visible step. */
  class SimpleForm {
    var playerName: string
    var groupPredictions: map<Group, seq<Team>>
    var knockoutPredictions: map<Slot, KnockoutMatch>
    var currentPhase: FormPhase

    /** Every group key is present with at most two distinct picks. */
    ghost predicate Valid()
      reads this
    {
      ValidGroups(groupPredictions)
    }

    /** The state after the mount effect has installed the initial group record. */
    constructor()
      ensures playerName == "" && groupPredictions == InitialGroups()
      ensures knockoutPredictions == map[] && currentPhase == GroupsStep
      ensures Valid()
    {
      playerName := "";
      groupPredictions := InitialGroups();
      knockoutPredictions := map[];
      currentPhase := GroupsStep;
      InitialGroupsIncomplete();
    }

    method SetPlayerName(name: string)
      requires Valid()
      modifies this
      ensures Valid()
      ensures playerName == name
      ensures groupPredictions == old(groupPredictions) && knockoutPredictions == old(knockoutPredictions)
      ensures currentPhase == old(currentPhase)
    {
      playerName := name;
    }

    method HandleGroupPrediction(g: Group, team: Team)
      requires Valid()
      modifies this
      ensures groupPredictions == PickTeam(old(groupPredictions), g, team)
      ensures playerName == old(playerName) && knockoutPredictions == old(knockoutPredictions)
      ensures currentPhase == old(currentPhase)
      ensures Valid()
    {
      PickTeamValid(groupPredictions, g, team);
      groupPredictions := PickTeam(groupPredictions, g, team);
    }

    method HandleKnockoutPrediction(s: Slot, m: KnockoutMatch)
      requires Valid()
      modifies this
      ensures Valid()
      ensures knockoutPredictions == old(knockoutPredictions)[s := m]
      ensures playerName == old(playerName) && groupPredictions == old(groupPredictions)
      ensures currentPhase == old(currentPhase)
    {
      knockoutPredictions := knockoutPredictions[s := m];
    }

    /** The "continue" button, which is only shown once the group step is complete. */
    method ContinueToKnockout()
      requires Valid() && IsGroupPhaseComplete(groupPredictions)
      modifies this
      ensures Valid()
      ensures currentPhase == KnockoutStep
      ensures playerName == old(playerName) && groupPredictions == old(groupPredictions)
      ensures knockoutPredictions == old(knockoutPredictions)
    {
      currentPhase := KnockoutStep;
    }

    method BackToGroups()
      requires Valid()
      modifies this
      ensures Valid()
      ensures currentPhase == GroupsStep
      ensures playerName == old(playerName) && groupPredictions == old(groupPredictions)
      ensures knockoutPredictions == old(knockoutPredictions)
    {
      currentPhase := GroupsStep;
    }

    method ResetForm()
      modifies this
      ensures playerName == "" && groupPredictions == InitialGroups()
      ensures knockoutPredictions == map[] && currentPhase == GroupsStep
      ensures Valid()
    {
      playerName := "";
      groupPredictions := InitialGroups();
      knockoutPredictions := map[];
      currentPhase := GroupsStep;
      InitialGroupsIncomplete();
    }

    /** submitPrediction with the id taken from the clock reading `now` and the given
        timestamp: a refusal leaves everything as it was; a saved prediction
        goes to the store and the form is reset. A form whose every group key is
        present never throws. */
    method SubmitPrediction(store: StorageService.LocalStorageService, now: nat, timestamp: string)
      returns (outcome: SubmitOutcome)
      requires Valid()
      modifies this, store
      ensures Valid()
      ensures outcome != Crashed
      ensures outcome == Submission(old(playerName), old(groupPredictions), old(knockoutPredictions),
                                    NatToString(now), timestamp)
      ensures !outcome.Saved? ==> unchanged(this) && unchanged(store)
      ensures outcome.Saved? ==>
        playerName == "" && groupPredictions == InitialGroups() &&
        knockoutPredictions == map[] && currentPhase == GroupsStep
      ensures outcome.Saved? && store.inBrowser ==>
        store.predictions == Some(StorageService.Upsert(old(store.StoredPredictions()), outcome.p))
      ensures outcome.Saved? && !store.inBrowser ==> store.predictions == old(store.predictions)
      ensures store.results == old(store.results)
    {
      if Trim(playerName) == "" {
        return NameMissing;
      }
      if !IsGroupPhaseComplete(groupPredictions) {
        return GroupsIncomplete;
      }
      ValidGroupsNeverCrash(groupPredictions, knockoutPredictions);
      var complete := KnockoutCompleteCheck(groupPredictions, knockoutPredictions);
      if !complete.value {
        return KnockoutIncomplete;
      }
      var prediction := Prediction(NatToString(now), Trim(playerName), groupPredictions,
                                   knockoutPredictions, timestamp, 0);
      store.SavePrediction(prediction);
      ResetForm();
      outcome := Saved(prediction);
    }
  }
}
