/** components/admin-panel-secure.tsx: the administrator's panel that records the
    official results. Group qualifiers are set by "first"/"second" picks, the bracket
    of the current results is generated slot by slot, and a knockout result update
    derives the winner from the regular-time score. */
module AdminPanelSecure {
  import opened Types
  import opened Lists
  import opened TournamentData

  /** The two buttons beside a team: set it as group winner or as runner-up. */
  datatype Position = First | Second

  /** The qualifier list after a "first" or "second" pick: the picked team goes to
      that place, the other place keeps what it held, and empty places are dropped
      (`[team, current[1]].filter(Boolean)` and `[current[0], team].filter(Boolean)`). */
  function SetPosition(current: seq<Team>, team: Team, pos: Position): (r: seq<Team>)
    ensures |r| <= 2
    ensures forall k :: 0 <= k < |r| ==> Truthy(r[k])
    ensures pos == First && Truthy(team) ==> r != [] && r[0] == team
    ensures pos == Second && Truthy(team) ==> r != [] && r[|r| - 1] == team
    ensures pos == First ==> (|r| == 2 <==> Truthy(team) && Truthy(At(current, 1)))
    ensures pos == Second ==> (|r| == 2 <==> Truthy(At(current, 0)) && Truthy(team))
    ensures pos == First && |r| == 2 ==> r[1] == current[1]
    ensures pos == Second && |r| == 2 ==> r[0] == current[0]
  {
    match pos
    case First => CompactPair(team, At(current, 1)); Compact([team, At(current, 1)])
    case Second => CompactPair(At(current, 0), team); Compact([At(current, 0), team])
  }

  /** Filtering a pair keeps the non-empty names of the two, in their order. */
  lemma {:induction false} CompactPair(a: Team, b: Team)
    ensures Compact([a, b]) ==
      if Truthy(a) && Truthy(b) then [a, b] else if Truthy(a) then [a] else if Truthy(b) then [b] else []
  {
    assert [a, b][1..] == [b];
    assert [b][1..] == [];
  }

  /** Picking a team as runner-up of a group with no qualifiers yet makes it the only
      qualifier, at index 0: it is then read as the group winner. */
  lemma SecondOnEmptyGroup(team: Team)
    requires Truthy(team)
    ensures SetPosition([], team, Second) == [team]
  {
  }

  /** Picking the current runner-up as winner does not move the old winner down: the
      list becomes the same team twice. */
  lemma RunnerUpPickedFirstDuplicates(winner: Team, runnerUp: Team)
    requires Truthy(winner) && Truthy(runnerUp)
    ensures SetPosition([winner, runnerUp], runnerUp, First) == [runnerUp, runnerUp]
    ensures !NoDuplicates(SetPosition([winner, runnerUp], runnerUp, First))
  {
    assert SetPosition([winner, runnerUp], runnerUp, First)[0] == SetPosition([winner, runnerUp], runnerUp, First)[1];
  }

  /** updateGroupResult: the results with the group's list replaced by the pick's outcome. */
  function WithGroupPick(r: TournamentResults, g: Group, team: Team, pos: Position): (r': TournamentResults)
    ensures g in r'.groupResults && r'.groupResults[g] == SetPosition(ListOr(r.groupResults, g), team, pos)
    ensures forall h :: h != g ==> (h in r'.groupResults <==> h in r.groupResults)
    ensures forall h :: h != g && h in r.groupResults ==> r'.groupResults[h] == r.groupResults[h]
    ensures r'.knockoutResults == r.knockoutResults && r'.currentPhase == r.currentPhase
  {
    r.(groupResults := r.groupResults[g := SetPosition(ListOr(r.groupResults, g), team, pos)])
  }

  /** removeFromGroup: the results with every occurrence of the team dropped from the group. */
  function WithTeamRemoved(r: TournamentResults, g: Group, team: Team): (r': TournamentResults)
    ensures g in r'.groupResults && r'.groupResults[g] == Without(ListOr(r.groupResults, g), team)
    ensures team !in r'.groupResults[g]
    ensures forall h :: h != g ==> (h in r'.groupResults <==> h in r.groupResults)
    ensures forall h :: h != g && h in r.groupResults ==> r'.groupResults[h] == r.groupResults[h]
    ensures r'.knockoutResults == r.knockoutResults && r'.currentPhase == r.currentPhase
  {
    r.(groupResults := r.groupResults[g := Without(ListOr(r.groupResults, g), team)])
  }

  /** One match of the generated bracket (its phase and description labels are not modelled). */
  datatype Fixture = Fixture(slot: Slot, team1: Team, team2: Team)

  /** `results.groupResults[group]?.qualified?.length === 2` */
  predicate HasTwoQualifiers(r: TournamentResults, g: Group) {
    g in r.groupResults && |r.groupResults[g]| == 2
  }

  /** Every group has exactly two qualifiers recorded. */
  ghost predicate GroupsComplete(r: TournamentResults) {
    forall g: Group :: HasTwoQualifiers(r, g)
  }

  /** `Object.keys(GROUPS).every(group => ...length === 2)` */
  method AllGroupsComplete(r: TournamentResults) returns (complete: bool)
    ensures complete <==> GroupsComplete(r)
  {
    complete := true;
    var k := 0;
    while k < |AllGroups|
      invariant 0 <= k <= |AllGroups|
      invariant complete <==> forall m :: 0 <= m < k ==> HasTwoQualifiers(r, AllGroups[m])
    {
      complete := complete && HasTwoQualifiers(r, AllGroups[k]);
      k := k + 1;
    }
    AllGroupsEnumerates();
    if complete {
      forall g: Group ensures HasTwoQualifiers(r, g) {
        assert g in AllGroups;
        var m :| 0 <= m < |AllGroups| && AllGroups[m] == g;
      }
    }
  }

  /** `results.groupResults[G]?.qualified[place - 1]` */
  function Qualifier(r: TournamentResults, s: Seed): Team
    requires 1 <= s.place
  {
    At(ListOr(r.groupResults, s.group), s.place - 1)
  }

  /** `results.knockoutResults[slot]?.winner`: "" stands for undefined, both being falsy. */
  function RecordedWinner(r: TournamentResults, s: Slot): Team {
    if s in r.knockoutResults then r.knockoutResults[s].winner else ""
  }

  /** The side of a recorded match that is not its winner; with no winner yet
      (winner ""), that is team1. The prediction form keeps its own copy of this rule
      for predicted matches (PredictionFormSimple.PredictedLoser). */
  function Loser(k: KnockoutResult): (t: Team)
    ensures t == k.team1 || t == k.team2
    ensures k.winner == k.team1 ==> t == k.team2
    ensures k.winner != k.team1 ==> t == k.team1
  {
    if k.winner == k.team1 then k.team2 else k.team1
  }

  /** The loser of a recorded match, or "" (null) when the slot has no result. */
  function RecordedLoser(r: TournamentResults, s: Slot): Team {
    if s in r.knockoutResults then Loser(r.knockoutResults[s]) else ""
  }

  /** The two teams the generator reads for a slot: the paired qualifiers for the
      Round of 16, the semifinal losers for third place, the feeder winners otherwise. */
  function Sides(r: TournamentResults, s: Slot): (Team, Team) {
    match s
    case R16(i) => (Qualifier(r, R16Pairing(i).0), Qualifier(r, R16Pairing(i).1))
    case Third => (RecordedLoser(r, ThirdFeeders.0), RecordedLoser(r, ThirdFeeders.1))
    case QF(j) => (RecordedWinner(r, R16(2 * j - 1)), RecordedWinner(r, R16(2 * j)))
    case SF(k) => (RecordedWinner(r, QF(2 * k - 1)), RecordedWinner(r, QF(2 * k)))
    case Final => (RecordedWinner(r, SF(1)), RecordedWinner(r, SF(2)))
  }

  /** The later slots read exactly the winners of their feeders. */
  lemma SidesFollowFeeders(r: TournamentResults, s: Slot)
    requires WinnerFeeders(s).Some?
    ensures Sides(r, s) == (RecordedWinner(r, WinnerFeeders(s).value.0), RecordedWinner(r, WinnerFeeders(s).value.1))
  {
  }

  /** A slot is emitted exactly when both of its sides are non-empty names. */
  function SecureFixture(r: TournamentResults, s: Slot): Option<Fixture> {
    var (t1, t2) := Sides(r, s);
    if Truthy(t1) && Truthy(t2) then Some(Fixture(s, t1, t2)) else None
  }

  function Present(o: Option<Fixture>): seq<Fixture> {
    if o.Some? then [o.value] else []
  }

  /** The fixtures of the given slots, in their order. */
  function Collect(r: TournamentResults, slots: seq<Slot>): seq<Fixture> {
    if slots == [] then []
    else Collect(r, slots[..|slots| - 1]) + Present(SecureFixture(r, slots[|slots| - 1]))
  }

  /** The bracket of the given results: nothing until every group has two qualifiers,
      then the emitted fixtures in the order r16_1..r16_8, qf_1..qf_4, sf_1, sf_2,
      third, final. */
  ghost function SecureBracket(r: TournamentResults): (b: seq<Fixture>)
    ensures !GroupsComplete(r) ==> b == []
    ensures |b| <= 16
    ensures forall f :: f in b ==> Truthy(f.team1) && Truthy(f.team2)
  {
    CollectNamed(r, AllSlots);
    if GroupsComplete(r) then Collect(r, AllSlots) else []
  }

  /** At most one fixture per slot, each between two non-empty names. */
  lemma {:induction false} CollectNamed(r: TournamentResults, slots: seq<Slot>)
    ensures |Collect(r, slots)| <= |slots|
    ensures forall f :: f in Collect(r, slots) ==> Truthy(f.team1) && Truthy(f.team2)
  {
    if slots != [] {
      CollectNamed(r, slots[..|slots| - 1]);
    }
  }

  /** The slot at position `n` of the bracket order is the one Rank places there. */
  lemma SlotAt(n: nat, s: Slot)
    requires n == Rank(s)
    ensures n < |AllSlots| && AllSlots[n] == s
  {
    match s
    case R16(i) => assert AllSlots[i - 1] == R16(i);
    case QF(j) => assert AllSlots[j + 7] == QF(j);
    case SF(k) => assert AllSlots[k + 11] == SF(k);
    case Third =>
    case Final =>
  }

  lemma CollectStep(r: TournamentResults, n: nat)
    requires n < |AllSlots|
    ensures Collect(r, AllSlots[..n + 1]) == Collect(r, AllSlots[..n]) + Present(SecureFixture(r, AllSlots[n]))
  {
    assert AllSlots[..n + 1][..n] == AllSlots[..n];
  }

  /** Emitting the slot that Rank places at position `n` extends the bracket prefix by
      its fixture when both of its sides are non-empty names, and by nothing otherwise. */
  lemma {:induction false} SlotStep(r: TournamentResults, n: nat, s: Slot, t1: Team, t2: Team)
    requires n == Rank(s) && Sides(r, s) == (t1, t2)
    ensures Collect(r, AllSlots[..n + 1]) ==
      Collect(r, AllSlots[..n]) + (if Truthy(t1) && Truthy(t2) then [Fixture(s, t1, t2)] else [])
  {
    assert Present(SecureFixture(r, s)) == if Truthy(t1) && Truthy(t2) then [Fixture(s, t1, t2)] else [];
    SlotAt(n, s);
    CollectStep(r, n);
  }

  lemma {:induction false} RoundOf16Sides(r: TournamentResults, i: Index8)
    ensures Sides(r, R16(i)) == (Qualifier(r, R16Pairing(i).0), Qualifier(r, R16Pairing(i).1))
  {
  }

  lemma {:induction false} QuarterFinalSides(r: TournamentResults, j: Index4)
    ensures Sides(r, QF(j)) == (RecordedWinner(r, R16(2 * j - 1)), RecordedWinner(r, R16(2 * j)))
  {
  }

  lemma {:induction false} SemiFinalSides(r: TournamentResults, k: Index2)
    ensures Sides(r, SF(k)) == (RecordedWinner(r, QF(2 * k - 1)), RecordedWinner(r, QF(2 * k)))
  {
  }

  lemma LastSlotsStep(r: TournamentResults)
    ensures var l1, l2 := RecordedLoser(r, SF(1)), RecordedLoser(r, SF(2));
      var w1, w2 := RecordedWinner(r, SF(1)), RecordedWinner(r, SF(2));
      Collect(r, AllSlots) == Collect(r, AllSlots[..14]) +
        (if Truthy(l1) && Truthy(l2) then [Fixture(Third, l1, l2)] else []) +
        (if Truthy(w1) && Truthy(w2) then [Fixture(Final, w1, w2)] else [])
  {
    CollectStep(r, 14);
    CollectStep(r, 15);
    assert AllSlots[..16] == AllSlots;
  }

  /** generateKnockoutMatches: the round-of-16 list, then the quarterfinal, semifinal,
      third-place and final checks, each pushing a match only when both its teams are
      non-empty names. */
  method GenerateKnockoutMatches(r: TournamentResults) returns (matches: seq<Fixture>)
    ensures matches == SecureBracket(r)
    ensures !GroupsComplete(r) ==> matches == []
  {
    matches := [];
    var complete := AllGroupsComplete(r);
    if !complete {
      return;
    }
    matches := PushRoundOf16(r, matches);
    matches := PushQuarterFinals(r, matches);
    matches := PushSemiFinals(r, matches);
    var sf1Loser, sf2Loser := RecordedLoser(r, SF(1)), RecordedLoser(r, SF(2));
    LastSlotsStep(r);
    if Truthy(sf1Loser) && Truthy(sf2Loser) {
      matches := matches + [Fixture(Third, sf1Loser, sf2Loser)];
    }
    var sf1Winner, sf2Winner := RecordedWinner(r, SF(1)), RecordedWinner(r, SF(2));
    if Truthy(sf1Winner) && Truthy(sf2Winner) {
      matches := matches + [Fixture(Final, sf1Winner, sf2Winner)];
    }
  }

  /** `r16Matches.forEach(...)`: the eight fixed pairings, in order. */
  method PushRoundOf16(r: TournamentResults, matches: seq<Fixture>) returns (matches': seq<Fixture>)
    requires matches == []
    ensures matches' == Collect(r, AllSlots[..8])
  {
    matches' := matches;
    var i := 1;
    while i <= 8
      invariant 1 <= i <= 9
      invariant matches' == Collect(r, AllSlots[..i - 1])
    {
      var (a, b) := R16Pairing(i);
      var team1, team2 := Qualifier(r, a), Qualifier(r, b);
      RoundOf16Sides(r, i);
      matches' := PushFixture(r, i - 1, R16(i), team1, team2, matches');
      i := i + 1;
    }
  }

  /** `qfMatches.forEach(...)`: qf_j pairs the winners of r16_(2j-1) and r16_(2j). */
  method PushQuarterFinals(r: TournamentResults, matches: seq<Fixture>) returns (matches': seq<Fixture>)
    requires matches == Collect(r, AllSlots[..8])
    ensures matches' == Collect(r, AllSlots[..12])
  {
    matches' := matches;
    var j := 1;
    while j <= 4
      invariant 1 <= j <= 5
      invariant matches' == Collect(r, AllSlots[..j + 7])
    {
      var team1, team2 := RecordedWinner(r, R16(2 * j - 1)), RecordedWinner(r, R16(2 * j));
      QuarterFinalSides(r, j);
      matches' := PushFixture(r, j + 7, QF(j), team1, team2, matches');
      j := j + 1;
    }
  }

  /** `sfMatches.forEach(...)`: sf_k pairs the winners of qf_(2k-1) and qf_(2k). */
  method PushSemiFinals(r: TournamentResults, matches: seq<Fixture>) returns (matches': seq<Fixture>)
    requires matches == Collect(r, AllSlots[..12])
    ensures matches' == Collect(r, AllSlots[..14])
  {
    matches' := matches;
    var k := 1;
    while k <= 2
      invariant 1 <= k <= 3
      invariant matches' == Collect(r, AllSlots[..k + 11])
    {
      var team1, team2 := RecordedWinner(r, QF(2 * k - 1)), RecordedWinner(r, QF(2 * k));
      SemiFinalSides(r, k);
      matches' := PushFixture(r, k + 11, SF(k), team1, team2, matches');
      k := k + 1;
    }
  }

  /** `matches.push({ id, team1, team2, ... })` behind its guard: the fixture of the slot
      at position `n` is pushed only when both of its teams are non-empty names. */
  method PushFixture(r: TournamentResults, n: nat, s: Slot, team1: Team, team2: Team, matches: seq<Fixture>)
    returns (matches': seq<Fixture>)
    requires n == Rank(s) && Sides(r, s) == (team1, team2)
    requires matches == Collect(r, AllSlots[..n])
    ensures matches' == Collect(r, AllSlots[..n + 1])
  {
    SlotStep(r, n, s, team1, team2);
    matches' := matches;
    if Truthy(team1) && Truthy(team2) {
      matches' := matches' + [Fixture(s, team1, team2)];
    }
  }

  /** `matches.find(m => m.id === matchId)`: the first fixture of the slot, if any. */
  function Find(ms: seq<Fixture>, s: Slot): (f: Option<Fixture>)
    ensures f.Some? ==> f.value in ms && f.value.slot == s
    ensures f.None? ==> forall m :: m in ms ==> m.slot != s
  {
    if ms == [] then None
    else if ms[0].slot == s then Some(ms[0])
    else Find(ms[1..], s)
  }

  lemma {:induction false} FindAppend(a: seq<Fixture>, b: seq<Fixture>, s: Slot)
    ensures Find(a + b, s) == if Find(a, s).Some? then Find(a, s) else Find(b, s)
  {
    if a == [] {
      assert a + b == b;
    } else {
      assert (a + b)[0] == a[0];
      assert (a + b)[1..] == a[1..] + b;
      FindAppend(a[1..], b, s);
    }
  }

  lemma {:induction false} FindCollect(r: TournamentResults, slots: seq<Slot>, s: Slot)
    requires NoDuplicates(slots)
    ensures Find(Collect(r, slots), s) == if s in slots then SecureFixture(r, s) else None
  {
    if slots != [] {
      var init, last := slots[..|slots| - 1], slots[|slots| - 1];
      assert NoDuplicates(init);
      assert last !in init;
      assert slots == init + [last];
      FindCollect(r, init, s);
      FindAppend(Collect(r, init), Present(SecureFixture(r, last)), s);
    }
  }

  /** Looking a slot up in the bracket gives that slot's fixture when every group is
      complete, and nothing otherwise. */
  lemma {:induction false} FindInBracket(r: TournamentResults, s: Slot)
    ensures Find(SecureBracket(r), s) == if GroupsComplete(r) then SecureFixture(r, s) else None
  {
    AllSlotsEnumerates();
    if GroupsComplete(r) {
      FindCollect(r, AllSlots, s);
    }
  }

  /** With every group complete, r16_i is played by the paired qualifiers, and is
      missing only when one of them is an empty name. */
  lemma RoundOf16Slot(r: TournamentResults, i: Index8)
    requires GroupsComplete(r)
    ensures var (a, b) := R16Pairing(i);
      HasTwoQualifiers(r, a.group) && HasTwoQualifiers(r, b.group) &&
      var t1, t2 := r.groupResults[a.group][a.place - 1], r.groupResults[b.group][b.place - 1];
      Find(SecureBracket(r), R16(i)) == if t1 != "" && t2 != "" then Some(Fixture(R16(i), t1, t2)) else None
  {
    FindInBracket(r, R16(i));
  }

  /** A quarterfinal, semifinal or the final is in the bracket exactly when every group
      is complete and both feeder slots have a recorded non-empty winner; its teams are
      those winners, in feeder order. */
  lemma CascadeSlot(r: TournamentResults, s: Slot)
    requires WinnerFeeders(s).Some?
    ensures var (a, b) := WinnerFeeders(s).value;
      Find(SecureBracket(r), s) ==
        if GroupsComplete(r) && RecordedWinner(r, a) != "" && RecordedWinner(r, b) != ""
        then Some(Fixture(s, RecordedWinner(r, a), RecordedWinner(r, b)))
        else None
  {
    FindInBracket(r, s);
    SidesFollowFeeders(r, s);
  }

  /** The third-place match is in the bracket exactly when every group is complete and
      both semifinal results exist with non-empty losers; each side is the team of that
      semifinal that is not its recorded winner. */
  lemma ThirdPlaceSlot(r: TournamentResults)
    ensures Find(SecureBracket(r), Third) ==
      if GroupsComplete(r) && SF(1) in r.knockoutResults && SF(2) in r.knockoutResults &&
         Loser(r.knockoutResults[SF(1)]) != "" && Loser(r.knockoutResults[SF(2)]) != ""
      then Some(Fixture(Third, Loser(r.knockoutResults[SF(1)]), Loser(r.knockoutResults[SF(2)])))
      else None
  {
    FindInBracket(r, Third);
  }

  /** A semifinal result saved before its winner is known (winner "") already sends its
      team1 to the third-place match, while the final is not yet in the bracket. */
  lemma ThirdPlaceBeforeSemisDecided(r: TournamentResults)
    requires GroupsComplete(r)
    requires SF(1) in r.knockoutResults && SF(2) in r.knockoutResults
    requires r.knockoutResults[SF(1)].winner == "" && r.knockoutResults[SF(1)].team1 != ""
    requires r.knockoutResults[SF(2)].winner == "" && r.knockoutResults[SF(2)].team1 != ""
    ensures Find(SecureBracket(r), Third) ==
      Some(Fixture(Third, r.knockoutResults[SF(1)].team1, r.knockoutResults[SF(2)].team1))
    ensures Find(SecureBracket(r), Final) == None
  {
    ThirdPlaceSlot(r);
    CascadeSlot(r, Final);
  }

  /** The rank of a slot in the emission order. */
  function Rank(s: Slot): (n: nat)
    ensures n < 16
  {
    match s
    case R16(i) => i - 1
    case QF(j) => j + 7
    case SF(k) => k + 11
    case Third => 14
    case Final => 15
  }

  lemma {:induction false} CollectSlots(r: TournamentResults, slots: seq<Slot>)
    ensures forall m :: m in Collect(r, slots) ==> m.slot in slots
  {
    if slots != [] {
      var init := slots[..|slots| - 1];
      CollectSlots(r, init);
      assert forall s :: s in init ==> s in slots;
    }
  }

  /** Every slot appears at most once in a bracket, and the slots come in the emission order. */
  predicate RankIncreasing(slots: seq<Slot>) {
    forall i, j :: 0 <= i < j < |slots| ==> Rank(slots[i]) < Rank(slots[j])
  }

  function SlotsOf(ms: seq<Fixture>): (r: seq<Slot>)
    ensures |r| == |ms| && forall k :: 0 <= k < |ms| ==> r[k] == ms[k].slot
  {
    seq(|ms|, k requires 0 <= k < |ms| => ms[k].slot)
  }

  /** The fixtures of slots listed in emission order come in emission order. */
  lemma {:induction false} CollectOrdered(r: TournamentResults, slots: seq<Slot>)
    requires RankIncreasing(slots)
    ensures RankIncreasing(SlotsOf(Collect(r, slots)))
  {
    if slots != [] {
      var init, last := slots[..|slots| - 1], slots[|slots| - 1];
      assert RankIncreasing(init);
      CollectOrdered(r, init);
      CollectSlots(r, init);
      var a := Collect(r, init);
      var ms := a + Present(SecureFixture(r, last));
      forall i, j | 0 <= i < j < |ms| ensures Rank(ms[i].slot) < Rank(ms[j].slot) {
        if j < |a| {
          assert SlotsOf(a)[i] == ms[i].slot && SlotsOf(a)[j] == ms[j].slot;
        } else {
          assert ms[i] in a;
          var k :| 0 <= k < |init| && init[k] == ms[i].slot;
          assert ms[j].slot == last;
        }
      }
    }
  }

  /** Every slot appears at most once in the bracket, and the slots come in emission order. */
  lemma BracketOrdered(r: TournamentResults)
    ensures RankIncreasing(SlotsOf(SecureBracket(r)))
  {
    AllSlotsEnumerates();
    forall i, j | 0 <= i < j < |AllSlots| ensures Rank(AllSlots[i]) < Rank(AllSlots[j]) {
      SlotAt(Rank(AllSlots[i]), AllSlots[i]);
      SlotAt(Rank(AllSlots[j]), AllSlots[j]);
    }
    CollectOrdered(r, AllSlots);
  }

  /** The fields an update carries (`Partial<...>`); None is a field the update leaves out. */
  datatype Updates = Updates(
    regularTime1: Option<int>, regularTime2: Option<int>,
    wentToExtraTime: Option<bool>, penaltyWinner: Option<Team>, winner: Option<Team>)

  /** The result a slot starts from when none is recorded. */
  function DefaultResult(m: Fixture): KnockoutResult {
    KnockoutResult(m.team1, m.team2, 0, 0, Some(false), Some(""), "")
  }

  /** `{ ...currentResult, ...updates }` */
  function Merge(k: KnockoutResult, u: Updates): (n: KnockoutResult)
    ensures n.team1 == k.team1 && n.team2 == k.team2
    ensures n.regularTime1 == u.regularTime1.GetOr(k.regularTime1)
    ensures n.regularTime2 == u.regularTime2.GetOr(k.regularTime2)
    ensures n.wentToExtraTime == (if u.wentToExtraTime.Some? then u.wentToExtraTime else k.wentToExtraTime)
    ensures n.penaltyWinner == (if u.penaltyWinner.Some? then u.penaltyWinner else k.penaltyWinner)
    ensures n.winner == u.winner.GetOr(k.winner)
  {
    KnockoutResult(
      k.team1, k.team2,
      u.regularTime1.GetOr(k.regularTime1), u.regularTime2.GetOr(k.regularTime2),
      if u.wentToExtraTime.Some? then u.wentToExtraTime else k.wentToExtraTime,
      if u.penaltyWinner.Some? then u.penaltyWinner else k.penaltyWinner,
      u.winner.GetOr(k.winner))
  }

  /** The result updateKnockoutResult records for a bracket fixture `m`. When the
      update carries both scores: a level score marks extra time and lets a non-empty
      penalty winner decide; otherwise the bracket team with the higher score wins,
      and a penalty pick survives only if the match went to extra time. */
  function SecureOutcome(current: KnockoutResult, u: Updates, m: Fixture): (n: KnockoutResult)
    ensures n.team1 == current.team1 && n.team2 == current.team2
    ensures n.regularTime1 == u.regularTime1.GetOr(current.regularTime1)
    ensures n.regularTime2 == u.regularTime2.GetOr(current.regularTime2)
    ensures !(u.regularTime1.Some? && u.regularTime2.Some?) ==> n == Merge(current, u)
    ensures u.regularTime1.Some? && u.regularTime2.Some? && n.regularTime1 != n.regularTime2 ==>
      n.winner == (if n.regularTime1 > n.regularTime2 then m.team1 else m.team2) &&
      n.wentToExtraTime == Merge(current, u).wentToExtraTime &&
      n.penaltyWinner == (if Merge(current, u).wentToExtraTime == Some(true)
                          then Merge(current, u).penaltyWinner else Some(""))
    ensures u.regularTime1.Some? && u.regularTime2.Some? && n.regularTime1 == n.regularTime2 ==>
      n.wentToExtraTime == Some(true) &&
      n.penaltyWinner == Merge(current, u).penaltyWinner &&
      n.winner == (if Merge(current, u).penaltyWinner.GetOr("") != ""
                   then Merge(current, u).penaltyWinner.value else Merge(current, u).winner)
  {
    var n := Merge(current, u);
    if u.regularTime1.Some? && u.regularTime2.Some? then
      var rt1, rt2 := u.regularTime1.value, u.regularTime2.value;
      if rt1 == rt2 then
        var tied := n.(wentToExtraTime := Some(true));
        if Truthy(tied.penaltyWinner.GetOr("")) then tied.(winner := tied.penaltyWinner.value) else tied
      else
        var decided := n.(winner := if rt1 > rt2 then m.team1 else m.team2);
        if !decided.wentToExtraTime.GetOr(false) then decided.(penaltyWinner := Some("")) else decided
    else n
  }

  /** The result recorded for the slot, or the default one built from its fixture. */
  function CurrentOr(r: TournamentResults, s: Slot, m: Fixture): KnockoutResult {
    if s in r.knockoutResults then r.knockoutResults[s] else DefaultResult(m)
  }

  /** The panel's state: the results it shows, and the browser's "tournamentResults"
      item, which every save overwrites (None while nothing is stored). */
  class SecureAdminPanel {
    var results: TournamentResults
    var stored: Option<TournamentResults>

    /** The mount effect loads the stored results, if there are any. */
    constructor(stored: Option<TournamentResults>)
      ensures results == stored.GetOr(EmptyResults)
      ensures this.stored == stored
    {
      results := stored.GetOr(EmptyResults);
      this.stored := stored;
    }

    method SaveResults(r: TournamentResults)
      modifies this
      ensures results == r && stored == Some(r)
    {
      results := r;
      stored := Some(r);
    }

    /** resetAllResults: no qualifiers, no knockout results, back to the group phase. */
    method ResetAllResults()
      modifies this
      ensures results == EmptyResults && stored == Some(results)
    {
      SaveResults(EmptyResults);
    }

    method UpdateGroupResult(g: Group, team: Team, pos: Position)
      modifies this
      ensures results == WithGroupPick(old(results), g, team, pos) && stored == Some(results)
    {
      SaveResults(WithGroupPick(results, g, team, pos));
    }

    method RemoveFromGroup(g: Group, team: Team)
      modifies this
      ensures results == WithTeamRemoved(old(results), g, team) && stored == Some(results)
    {
      SaveResults(WithTeamRemoved(results, g, team));
    }

    /** updateKnockoutResult: nothing happens for a slot that is not in the current
      bracket; otherwise only that slot's result changes, to the resolved outcome. */
    method UpdateKnockoutResult(s: Slot, u: Updates)
      modifies this
      ensures Find(SecureBracket(old(results)), s).None? ==> results == old(results) && stored == old(stored)
      ensures Find(SecureBracket(old(results)), s).Some? ==>
        var m := Find(SecureBracket(old(results)), s).value;
        results == old(results).(knockoutResults :=
          old(results).knockoutResults[s := SecureOutcome(CurrentOr(old(results), s, m), u, m)]) &&
        stored == Some(results)
    {
      var bracket := GenerateKnockoutMatches(results);
      var found := Find(bracket, s);
      if found.None? {
        return;
      }
      var m := found.value;
      var newResult := Merge(CurrentOr(results, s, m), u);
      if u.regularTime1.Some? && u.regularTime2.Some? {
        var rt1, rt2 := u.regularTime1.value, u.regularTime2.value;
        if rt1 == rt2 {
          newResult := newResult.(wentToExtraTime := Some(true));
          if Truthy(newResult.penaltyWinner.GetOr("")) {
            newResult := newResult.(winner := newResult.penaltyWinner.value);
          }
        } else {
          newResult := newResult.(winner := if rt1 > rt2 then m.team1 else m.team2);
          if !newResult.wentToExtraTime.GetOr(false) {
            newResult := newResult.(penaltyWinner := Some(""));
          }
        }
      }
      SaveResults(results.(knockoutResults := results.knockoutResults[s := newResult]));
    }
  }
}
