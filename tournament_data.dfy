/** lib/tournament-data.ts: the GROUPS and KNOCKOUT_STRUCTURE tables, and the
    fixed pairing rules that the bracket generators and the structure table share. */
module TournamentData {
  import opened Types
  import opened Strings

  /** GROUPS: the four teams of each group. */
  function Teams(g: Group): seq<Team> {
    match g
    case A => ["Porto", "Palmeiras", "Al-Ahly", "Inter Miami"]
    case B => ["PSG", "Atletico Madrid", "Botafogo", "Seattle Sounders"]
    case C => ["Bayern Munich", "Benfica", "Boca Juniors", "Auckland City"]
    case D => ["Flamengo", "Chelsea", "LA Galaxy", "Espérance"]
    case E => ["River Plate", "Inter Milan", "Monterrey", "Urawa Red Diamonds"]
    case F => ["Fluminense", "Borussia Dortmund", "Ulsan Hyundai", "Mamelodi Sundowns"]
    case G => ["Manchester City", "Juventus", "Al Ain", "Wydad Casablanca"]
    case H => ["Real Madrid", "RB Salzburg", "Pachuca", "Al-Hilal"]
  }

  /** Every team of the tournament, group by group in the order of AllGroups. */
  function AllTeams(): seq<Team> {
    Teams(A) + Teams(B) + Teams(C) + Teams(D) + Teams(E) + Teams(F) + Teams(G) + Teams(H)
  }

  /** Eight groups, each of exactly four teams. */
  lemma GroupsShape()
    ensures |AllGroups| == 8
    ensures forall g: Group :: |Teams(g)| == 4
    ensures |AllTeams()| == 32
  {
    AllGroupsEnumerates();
  }

  /** A name's length with its first and last letter. */
  function Signature(t: Team): (int, char, char) {
    if t == [] then (0, ' ', ' ') else (|t|, t[0], t[|t| - 1])
  }

  /** The group and position of the team with a given signature. */
  function Locate(s: (int, char, char)): Option<(Group, int)> {
    if s == (5, 'P', 'o') then Some((A, 0)) else
    if s == (9, 'P', 's') then Some((A, 1)) else
    if s == (7, 'A', 'y') then Some((A, 2)) else
    if s == (11, 'I', 'i') then Some((A, 3)) else
    if s == (3, 'P', 'G') then Some((B, 0)) else
    if s == (15, 'A', 'd') then Some((B, 1)) else
    if s == (8, 'B', 'o') then Some((B, 2)) else
    if s == (16, 'S', 's') then Some((B, 3)) else
    if s == (13, 'B', 'h') then Some((C, 0)) else
    if s == (7, 'B', 'a') then Some((C, 1)) else
    if s == (12, 'B', 's') then Some((C, 2)) else
    if s == (13, 'A', 'y') then Some((C, 3)) else
    if s == (8, 'F', 'o') then Some((D, 0)) else
    if s == (7, 'C', 'a') then Some((D, 1)) else
    if s == (9, 'L', 'y') then Some((D, 2)) else
    if s == (9, 'E', 'e') then Some((D, 3)) else
    if s == (11, 'R', 'e') then Some((E, 0)) else
    if s == (11, 'I', 'n') then Some((E, 1)) else
    if s == (9, 'M', 'y') then Some((E, 2)) else
    if s == (18, 'U', 's') then Some((E, 3)) else
    if s == (10, 'F', 'e') then Some((F, 0)) else
    if s == (17, 'B', 'd') then Some((F, 1)) else
    if s == (13, 'U', 'i') then Some((F, 2)) else
    if s == (17, 'M', 's') then Some((F, 3)) else
    if s == (15, 'M', 'y') then Some((G, 0)) else
    if s == (8, 'J', 's') then Some((G, 1)) else
    if s == (6, 'A', 'n') then Some((G, 2)) else
    if s == (16, 'W', 'a') then Some((G, 3)) else
    if s == (11, 'R', 'd') then Some((H, 0)) else
    if s == (11, 'R', 'g') then Some((H, 1)) else
    if s == (7, 'P', 'a') then Some((H, 2)) else
    if s == (8, 'A', 'l') then Some((H, 3)) else
    None
  }

  /** Every team's signature locates that team, so no two entries share a name. */
  lemma LocateTeams(g: Group)
    ensures forall k :: 0 <= k < |Teams(g)| ==> Locate(Signature(Teams(g)[k])) == Some((g, k))
  {
    match g
    case A => LocateAB();
    case B => LocateAB();
    case C => LocateCD();
    case D => LocateCD();
    case E => LocateEF();
    case F => LocateEF();
    case G => LocateGH();
    case H => LocateGH();
  }

  lemma LocateAB()
    ensures forall k :: 0 <= k < |Teams(A)| ==> Locate(Signature(Teams(A)[k])) == Some((A, k))
    ensures forall k :: 0 <= k < |Teams(B)| ==> Locate(Signature(Teams(B)[k])) == Some((B, k))
  {
  }

  lemma LocateCD()
    ensures forall k :: 0 <= k < |Teams(C)| ==> Locate(Signature(Teams(C)[k])) == Some((C, k))
    ensures forall k :: 0 <= k < |Teams(D)| ==> Locate(Signature(Teams(D)[k])) == Some((D, k))
  {
  }

  lemma LocateEF()
    ensures forall k :: 0 <= k < |Teams(E)| ==> Locate(Signature(Teams(E)[k])) == Some((E, k))
    ensures forall k :: 0 <= k < |Teams(F)| ==> Locate(Signature(Teams(F)[k])) == Some((F, k))
  {
  }

  lemma LocateGH()
    ensures forall k :: 0 <= k < |Teams(G)| ==> Locate(Signature(Teams(G)[k])) == Some((G, k))
    ensures forall k :: 0 <= k < |Teams(H)| ==> Locate(Signature(Teams(H)[k])) == Some((H, k))
  {
  }

  /** No team name appears twice in the table: the four names of a group differ, and
      a name belongs to one group only. */
  lemma TeamsDistinct()
    ensures forall g: Group, i, j :: 0 <= i < j < |Teams(g)| ==> Teams(g)[i] != Teams(g)[j]
    ensures forall g: Group, h: Group, t :: t in Teams(g) && t in Teams(h) ==> g == h
  {
    forall g: Group, i, j | 0 <= i < j < |Teams(g)| ensures Teams(g)[i] != Teams(g)[j] {
      LocateTeams(g);
    }
    forall g: Group, h: Group, t | t in Teams(g) && t in Teams(h) ensures g == h {
      LocateTeams(g);
      LocateTeams(h);
      var i :| 0 <= i < |Teams(g)| && Teams(g)[i] == t;
      var j :| 0 <= j < |Teams(h)| && Teams(h)[j] == t;
    }
  }

  /** A seed of the Round of 16: the team finishing `place` (1 or 2) in `group`. */
  datatype Seed = Seed(place: int, group: Group)

  /** The fixed Round-of-16 pairing: r16_1 is 1A x 2B, ..., r16_8 is 2G x 1H. */
  function R16Pairing(i: Index8): (p: (Seed, Seed))
    ensures (p.0.place, p.1.place) == (1, 2) || (p.0.place, p.1.place) == (2, 1)
  {
    match i
    case 1 => (Seed(1, A), Seed(2, B))
    case 2 => (Seed(1, C), Seed(2, D))
    case 3 => (Seed(1, E), Seed(2, F))
    case 4 => (Seed(1, G), Seed(2, H))
    case 5 => (Seed(2, A), Seed(1, B))
    case 6 => (Seed(2, C), Seed(1, D))
    case 7 => (Seed(2, E), Seed(1, F))
    case 8 => (Seed(2, G), Seed(1, H))
  }

  /** The sixteen seeds in the order the Round-of-16 slots list them. */
  function R16Seeds(): (seeds: seq<Seed>)
    ensures |seeds| == 16
    ensures forall i: Index8 :: seeds[2 * i - 2] == R16Pairing(i).0 && seeds[2 * i - 1] == R16Pairing(i).1
  {
    [Seed(1, A), Seed(2, B), Seed(1, C), Seed(2, D), Seed(1, E), Seed(2, F), Seed(1, G), Seed(2, H),
     Seed(2, A), Seed(1, B), Seed(2, C), Seed(1, D), Seed(2, E), Seed(1, F), Seed(2, G), Seed(1, H)]
  }

  /** No seed plays two Round-of-16 matches, and no match pairs two teams of the same
      group or of the same place. */
  lemma R16SeedsDistinct()
    ensures forall i, j :: 0 <= i < j < |R16Seeds()| ==> R16Seeds()[i] != R16Seeds()[j]
    ensures forall i: Index8 :: R16Pairing(i).0.place != R16Pairing(i).1.place &&
                                R16Pairing(i).0.group != R16Pairing(i).1.group
  {
  }

  /** Every group winner and every runner-up plays in the Round of 16. */
  lemma R16SeedsCover(p: int, g: Group)
    requires 1 <= p <= 2
    ensures Seed(p, g) in R16Seeds()
  {
    var k := match g
      case A => if p == 1 then 0 else 8
      case B => if p == 1 then 9 else 1
      case C => if p == 1 then 2 else 10
      case D => if p == 1 then 11 else 3
      case E => if p == 1 then 4 else 12
      case F => if p == 1 then 13 else 5
      case G => if p == 1 then 6 else 14
      case H => if p == 1 then 15 else 7;
    assert R16Seeds()[k] == Seed(p, g);
  }

  /** The two earlier slots whose winners meet in a later slot:
      qf_k is r16_(2k-1) x r16_(2k), sf_k is qf_(2k-1) x qf_(2k), and the final is sf_1 x sf_2. */
  function WinnerFeeders(s: Slot): Option<(Slot, Slot)> {
    match s
    case R16(_) => None
    case QF(j) => Some((R16(2 * j - 1), R16(2 * j)))
    case SF(k) => Some((QF(2 * k - 1), QF(2 * k)))
    case Final => Some((SF(1), SF(2)))
    case Third => None
  }

  /** The two slots whose losers meet in the third-place match. */
  const ThirdFeeders: (Slot, Slot) := (SF(1), SF(2))

  /** Every slot after the Round of 16 except the third-place match is fed by two
      distinct slots of the round before it, and no slot feeds two matches. */
  lemma FeedersFormATree()
    ensures forall s: Slot :: WinnerFeeders(s).Some? <==> (s.QF? || s.SF? || s.Final?)
    ensures forall s: Slot :: WinnerFeeders(s).Some? ==> WinnerFeeders(s).value.0 != WinnerFeeders(s).value.1
    ensures forall s: Slot, t: Slot :: s != t && WinnerFeeders(s).Some? && WinnerFeeders(t).Some? ==>
      WinnerFeeders(s).value.0 != WinnerFeeders(t).value.0 &&
      WinnerFeeders(s).value.0 != WinnerFeeders(t).value.1 &&
      WinnerFeeders(s).value.1 != WinnerFeeders(t).value.1
  {
  }

  /** The label a seed has in the structure table, "1A", "2B", ... */
  function SeedLabel(s: Seed): string
    requires 1 <= s.place <= 2
  {
    [Digit(s.place)] + GroupKey(s.group)
  }

  datatype Entry = Entry(id: string, description: string)

  datatype Structure = Structure(
    roundOf16: seq<Entry>,
    quarterFinals: seq<Entry>,
    semiFinals: seq<Entry>,
    thirdPlace: seq<Entry>,
    final: seq<Entry>)

  /** KNOCKOUT_STRUCTURE, as written. */
  const KnockoutStructure: Structure := Structure(
    [ Entry("r16_1", "1A x 2B"), Entry("r16_2", "1C x 2D"),
      Entry("r16_3", "1E x 2F"), Entry("r16_4", "1G x 2H"),
      Entry("r16_5", "2A x 1B"), Entry("r16_6", "2C x 1D"),
      Entry("r16_7", "2E x 1F"), Entry("r16_8", "2G x 1H") ],
    [ Entry("qf_1", "Vencedor R16_1 x Vencedor R16_2"),
      Entry("qf_2", "Vencedor R16_3 x Vencedor R16_4"),
      Entry("qf_3", "Vencedor R16_5 x Vencedor R16_6"),
      Entry("qf_4", "Vencedor R16_7 x Vencedor R16_8") ],
    [ Entry("sf_1", "Vencedor QF_1 x Vencedor QF_2"),
      Entry("sf_2", "Vencedor QF_3 x Vencedor QF_4") ],
    [ Entry("3rd", "Perdedor SF_1 x Perdedor SF_2") ],
    [ Entry("final", "Vencedor SF_1 x Vencedor SF_2") ])

  /** The phases hold 8, 4, 2, 1 and 1 slots: sixteen matches in all. */
  lemma StructureSizes()
    ensures |KnockoutStructure.roundOf16| == 8 && |KnockoutStructure.quarterFinals| == 4
    ensures |KnockoutStructure.semiFinals| == 2
    ensures |KnockoutStructure.thirdPlace| == 1 && |KnockoutStructure.final| == 1
    ensures |KnockoutStructure.roundOf16| + |KnockoutStructure.quarterFinals| +
            |KnockoutStructure.semiFinals| + |KnockoutStructure.thirdPlace| +
            |KnockoutStructure.final| == |AllSlots|
  {
  }

  /** The Round-of-16 rows carry the slot ids of the enumeration and describe exactly
      the pairing the bracket generators use. */
  lemma R16RowsMatchPairing(i: Index8)
    ensures KnockoutStructure.roundOf16[i - 1] ==
      Entry(SlotId(R16(i)), SeedLabel(R16Pairing(i).0) + " x " + SeedLabel(R16Pairing(i).1))
  {
  }

  function WinnerOf(s: Slot): string {
    "Vencedor " + ToUpperAscii(SlotId(s))
  }

  lemma {:induction false} UpperAppend(a: string, b: string)
    ensures ToUpperAscii(a + b) == ToUpperAscii(a) + ToUpperAscii(b)
  {
    if a == [] {
      assert a + b == b;
    } else {
      assert (a + b)[0] == a[0];
      assert (a + b)[1..] == a[1..] + b;
      UpperAppend(a[1..], b);
    }
  }

  /** Upper-casing a round's slot id only changes its letters: "r16_3" becomes "R16_3". */
  lemma WinnerOfR16(i: Index8)
    ensures WinnerOf(R16(i)) == "Vencedor R16_" + [Digit(i)]
  {
    UpperAppend("r16_", [Digit(i)]);
    assert ToUpperAscii("r16_") == "R16_" by {
      assert ToUpperAscii("_") == "_";
      assert ToUpperAscii("6_") == "6_";
      assert ToUpperAscii("16_") == "16_";
    }
  }

  lemma WinnerOfQF(j: Index4)
    ensures WinnerOf(QF(j)) == "Vencedor QF_" + [Digit(j)]
  {
    UpperAppend("qf_", [Digit(j)]);
    assert ToUpperAscii("qf_") == "QF_" by {
      assert ToUpperAscii("_") == "_";
      assert ToUpperAscii("f_") == "F_";
    }
  }

  lemma UpperSF(k: Index2)
    ensures ToUpperAscii(SlotId(SF(k))) == "SF_" + [Digit(k)]
  {
    UpperAppend("sf_", [Digit(k)]);
    assert ToUpperAscii("sf_") == "SF_" by {
      assert ToUpperAscii("_") == "_";
      assert ToUpperAscii("f_") == "F_";
    }
  }

  lemma QuarterRowText(j: Index4)
    ensures KnockoutStructure.quarterFinals[j - 1] ==
      Entry("qf_" + [Digit(j)], "Vencedor R16_" + [Digit(2 * j - 1)] + " x " + "Vencedor R16_" + [Digit(2 * j)])
  {
    if j == 1 { QuarterRow1(); } else if j == 2 { QuarterRow2(); }
    else if j == 3 { QuarterRow3(); } else { QuarterRow4(); }
  }

  lemma QuarterRow1()
    ensures KnockoutStructure.quarterFinals[0] ==
      Entry("qf_" + [Digit(1)], "Vencedor R16_" + [Digit(1)] + " x " + "Vencedor R16_" + [Digit(2)])
  {
  }

  lemma QuarterRow2()
    ensures KnockoutStructure.quarterFinals[1] ==
      Entry("qf_" + [Digit(2)], "Vencedor R16_" + [Digit(3)] + " x " + "Vencedor R16_" + [Digit(4)])
  {
  }

  lemma QuarterRow3()
    ensures KnockoutStructure.quarterFinals[2] ==
      Entry("qf_" + [Digit(3)], "Vencedor R16_" + [Digit(5)] + " x " + "Vencedor R16_" + [Digit(6)])
  {
  }

  lemma QuarterRow4()
    ensures KnockoutStructure.quarterFinals[3] ==
      Entry("qf_" + [Digit(4)], "Vencedor R16_" + [Digit(7)] + " x " + "Vencedor R16_" + [Digit(8)])
  {
  }

  lemma SemiRowText(k: Index2)
    ensures KnockoutStructure.semiFinals[k - 1] ==
      Entry("sf_" + [Digit(k)], "Vencedor QF_" + [Digit(2 * k - 1)] + " x " + "Vencedor QF_" + [Digit(2 * k)])
  {
    if k == 1 { SemiRow1(); } else { SemiRow2(); }
  }

  lemma SemiRow1()
    ensures KnockoutStructure.semiFinals[0] ==
      Entry("sf_" + [Digit(1)], "Vencedor QF_" + [Digit(1)] + " x " + "Vencedor QF_" + [Digit(2)])
  {
  }

  lemma SemiRow2()
    ensures KnockoutStructure.semiFinals[1] ==
      Entry("sf_" + [Digit(2)], "Vencedor QF_" + [Digit(3)] + " x " + "Vencedor QF_" + [Digit(4)])
  {
  }

  lemma FinalRowText()
    ensures KnockoutStructure.final[0] == Entry("final", "Vencedor SF_1 x Vencedor SF_2")
  {
  }

  /** The quarterfinal rows describe the winners of exactly the feeder slots. */
  lemma QuarterRowsMatchFeeders(j: Index4)
    ensures WinnerFeeders(QF(j)).Some?
    ensures KnockoutStructure.quarterFinals[j - 1] ==
      Entry(SlotId(QF(j)), WinnerOf(WinnerFeeders(QF(j)).value.0) + " x " + WinnerOf(WinnerFeeders(QF(j)).value.1))
  {
    WinnerOfR16(2 * j - 1);
    WinnerOfR16(2 * j);
    QuarterRowText(j);
  }

  /** The semifinal rows describe the winners of exactly the feeder slots. */
  lemma SemiRowsMatchFeeders(k: Index2)
    ensures WinnerFeeders(SF(k)).Some?
    ensures KnockoutStructure.semiFinals[k - 1] ==
      Entry(SlotId(SF(k)), WinnerOf(WinnerFeeders(SF(k)).value.0) + " x " + WinnerOf(WinnerFeeders(SF(k)).value.1))
  {
    WinnerOfQF(2 * k - 1);
    WinnerOfQF(2 * k);
    SemiRowText(k);
  }

  /** The final row describes the winners of the two semifinals. */
  lemma FinalRowMatchesFeeders()
    ensures WinnerFeeders(Final).Some?
    ensures KnockoutStructure.final[0] ==
      Entry(SlotId(Final), WinnerOf(WinnerFeeders(Final).value.0) + " x " + WinnerOf(WinnerFeeders(Final).value.1))
  {
    assert WinnerFeeders(Final).value == (SF(1), SF(2));
    FinalWinnersText();
    FinalRowText();
  }

  lemma FinalWinnersText()
    ensures WinnerOf(SF(1)) + " x " + WinnerOf(SF(2)) == "Vencedor SF_1 x Vencedor SF_2"
  {
    var w1, w2 := WinnerOf(SF(1)), WinnerOf(SF(2));
    assert w1 == "Vencedor SF_1" by {
      UpperSF(1);
    }
    assert w2 == "Vencedor SF_2" by {
      UpperSF(2);
    }
  }

  /** The third-place row describes the losers of the two semifinals, but its id is
      "3rd" while every component keys that match as "third". */
  lemma ThirdPlaceRowId()
    ensures KnockoutStructure.thirdPlace[0].id == "3rd"
    ensures KnockoutStructure.thirdPlace[0].id != SlotId(Third)
    ensures KnockoutStructure.thirdPlace[0].description ==
      "Perdedor " + ToUpperAscii(SlotId(ThirdFeeders.0)) + " x Perdedor " + ToUpperAscii(SlotId(ThirdFeeders.1))
  {
    UpperSF(1);
    UpperSF(2);
  }
}
