/** The records of lib/types.ts, with the string keys the components use for
    groups and knockout slots turned into closed enumerations. */
module Types {

  datatype Option<+T> = None | Some(value: T) {
    function GetOr(default: T): T {
      match this
      case Some(v) => v
      case None => default
    }
  }

  /** A team is an opaque name; "" is the value the components use for "no team yet". */
  type Team = string

  /** The eight group letters of the tournament. */
  datatype Group = A | B | C | D | E | F | G | H

  /** The key under which a group is stored in the components' records. */
  function GroupKey(g: Group): (k: string)
    ensures |k| == 1 && 'A' <= k[0] <= 'H'
  {
    match g
    case A => "A" case B => "B" case C => "C" case D => "D"
    case E => "E" case F => "F" case G => "G" case H => "H"
  }

  /** The groups in the order of the GROUPS table (and of Object.keys on it). */
  const AllGroups: seq<Group> := [A, B, C, D, E, F, G, H]

  lemma AllGroupsEnumerates()
    ensures |AllGroups| == 8
    ensures forall g: Group :: g in AllGroups
    ensures forall i, j :: 0 <= i < j < |AllGroups| ==> AllGroups[i] != AllGroups[j]
    ensures forall g, g' :: GroupKey(g) == GroupKey(g') ==> g == g'
  {
    forall g: Group ensures g in AllGroups {
      var i := match g case A => 0 case B => 1 case C => 2 case D => 3
                       case E => 4 case F => 5 case G => 6 case H => 7;
      assert AllGroups[i] == g;
    }
  }

  type Index8 = n: int | 1 <= n <= 8 witness 1
  type Index4 = n: int | 1 <= n <= 4 witness 1
  type Index2 = n: int | 1 <= n <= 2 witness 1

  /** The sixteen knockout slots: r16_1..r16_8, qf_1..qf_4, sf_1, sf_2, third and final. */
  datatype Slot = R16(i: Index8) | QF(j: Index4) | SF(k: Index2) | Third | Final

  function Digit(n: int): char
    requires 0 <= n <= 9
  {
    "0123456789"[n]
  }

  /** The string id the components use as a key for the slot. */
  function SlotId(s: Slot): string {
    match s
    case R16(i) => "r16_" + [Digit(i)]
    case QF(j) => "qf_" + [Digit(j)]
    case SF(k) => "sf_" + [Digit(k)]
    case Third => "third"
    case Final => "final"
  }

  lemma SlotIdInjective(s: Slot, t: Slot)
    requires SlotId(s) == SlotId(t)
    ensures s == t
  {
    var a, b := SlotId(s), SlotId(t);
    if s.R16? || s.QF? || s.SF? {
      assert a[|a| - 1] == b[|b| - 1];
    }
    assert a[0] == b[0];
    if (s.R16? && t.R16?) || (s.QF? && t.QF?) || (s.SF? && t.SF?) {
      assert a[|a| - 1] == b[|b| - 1];
    }
  }

  /** The slots in the order the bracket generators emit them. */
  const AllSlots: seq<Slot> :=
    [R16(1), R16(2), R16(3), R16(4), R16(5), R16(6), R16(7), R16(8),
     QF(1), QF(2), QF(3), QF(4), SF(1), SF(2), Third, Final]

  lemma AllSlotsEnumerates()
    ensures |AllSlots| == 16
    ensures forall s: Slot :: s in AllSlots
    ensures forall i, j :: 0 <= i < j < |AllSlots| ==> AllSlots[i] != AllSlots[j]
  {
    forall s: Slot ensures s in AllSlots {
      match s
      case R16(i) => assert AllSlots[i - 1] == s;
      case QF(j) => assert AllSlots[7 + j] == s;
      case SF(k) => assert AllSlots[11 + k] == s;
      case Third => assert AllSlots[14] == s;
      case Final => assert AllSlots[15] == s;
    }
  }

  /** KnockoutMatch: one predicted knockout match, every field present. */
  datatype KnockoutMatch = KnockoutMatch(
    team1: Team, team2: Team,
    regularTime1: int, regularTime2: int,
    wentToExtraTime: bool,
    penaltyWinner: Team,
    winner: Team)

  /** KnockoutResult: one official knockout result; the extra-time flag and the
      penalty winner are optional fields. */
  datatype KnockoutResult = KnockoutResult(
    team1: Team, team2: Team,
    regularTime1: int, regularTime2: int,
    wentToExtraTime: Option<bool>,
    penaltyWinner: Option<Team>,
    winner: Team)

  datatype Phase = GroupsPhase | KnockoutPhase | Finished

  /** TournamentResults; a GroupResult record `{ qualified }` is represented by its list. */
  datatype TournamentResults = TournamentResults(
    groupResults: map<Group, seq<Team>>,
    knockoutResults: map<Slot, KnockoutResult>,
    currentPhase: Phase)

  const EmptyResults: TournamentResults := TournamentResults(map[], map[], GroupsPhase)

  datatype Prediction = Prediction(
    id: string,
    playerName: string,
    groupPredictions: map<Group, seq<Team>>,
    knockoutPredictions: map<Slot, KnockoutMatch>,
    timestamp: string,
    score: int)

  /** `record[key] || []`: the list stored under a key, or the empty list when it is absent. */
  function ListOr(m: map<Group, seq<Team>>, g: Group): seq<Team> {
    if g in m then m[g] else []
  }
}
