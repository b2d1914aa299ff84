/** The expected outcomes of the repository's hand tests, proved about the
    model: each hand's failing and passing checks, its best category and its
    tie-break key. Slot numbers are value rank minus 2 (Ace = 12). */
module HandExamples {
  import opened Cards
  import opened Ranking
  import opened Straights
  import opened TieBreak
  import opened Compare

  /** The largest entry is m when m occurs and nothing exceeds it. */
  lemma MaxIs(s: seq<nat>, m: nat)
    requires m in s && forall j :: 0 <= j < |s| ==> s[j] <= m
    ensures |s| > 0 && Max(s) == m
  {
  }

  /** The key of a hand follows from its counts once the key facts are shown. */
  lemma KeyFrom(cards: seq<Card>, daa: seq<nat>, s: seq<nat>)
    requires |cards| == CardsInAHand && Counts(cards) == daa
    requires KeyCounts(daa, s) && KeyOrder(daa, s)
    ensures Key(cards) == s
  {
    KeyCharacterized(daa, s);
  }

  /** The royal-flush fixture: A K Q J 10 of clubs. */
  const RoyalFlushHand: seq<Card> := [Card(Clubs, Ace), Card(Clubs, King), Card(Clubs, Queen), Card(Clubs, Jack), Card(Clubs, Pip(10))]

  lemma RoyalFlushCounts()
    ensures Counts(RoyalFlushHand) == [0, 0, 0, 0, 0, 0, 0, 0, 1, 1, 1, 1, 1]
  {
    var h := RoyalFlushHand;
    assert h[..1][..0] == [];
    assert Counts(h[..1]) == [0, 0, 0, 0, 0, 0, 0, 0, 0, 0, 0, 0, 1];
    assert h[..2][..1] == h[..1];
    assert Counts(h[..2]) == [0, 0, 0, 0, 0, 0, 0, 0, 0, 0, 0, 1, 1];
    assert h[..3][..2] == h[..2];
    assert Counts(h[..3]) == [0, 0, 0, 0, 0, 0, 0, 0, 0, 0, 1, 1, 1];
    assert h[..4][..3] == h[..3];
    assert Counts(h[..4]) == [0, 0, 0, 0, 0, 0, 0, 0, 0, 1, 1, 1, 1];
    assert h[..4] == h[..|h| - 1];
  }

  /** The suit-level checks: flush and royal flush. */
  lemma RoyalFlushSuits()
    ensures IsFlush(RoyalFlushHand)
    ensures IsRoyalFlush(RoyalFlushHand)
  {
    assert ValueSet(RoyalFlushHand) == RoyalFlushVals by {
      assert RoyalFlushHand[0].val in ValueSet(RoyalFlushHand) && RoyalFlushHand[1].val in ValueSet(RoyalFlushHand) && RoyalFlushHand[2].val in ValueSet(RoyalFlushHand);
      assert RoyalFlushHand[3].val in ValueSet(RoyalFlushHand) && RoyalFlushHand[4].val in ValueSet(RoyalFlushHand);
    }
  }

  /** Every check ranked above RoyalFlush fails and RoyalFlush holds. */
  lemma RoyalFlushHolds()
    ensures Holds(RoyalFlush, RoyalFlushHand)
  {
    RoyalFlushSuits();
  }

  /** The best category is RoyalFlush. */
  lemma RoyalFlushCategory()
    ensures Classify(RoyalFlushHand) == RoyalFlush
  {
    RoyalFlushHolds();
    ClassifyIs(RoyalFlushHand, RoyalFlush);
  }

  lemma RoyalFlushKeyCounts()
    ensures KeyCounts([0, 0, 0, 0, 0, 0, 0, 0, 1, 1, 1, 1, 1], [12, 11, 10, 9, 8])
  {
  }

  lemma RoyalFlushKeyOrder()
    ensures KeyOrder([0, 0, 0, 0, 0, 0, 0, 0, 1, 1, 1, 1, 1], [12, 11, 10, 9, 8])
  {
  }

  /** The tie-break key the test expects. */
  lemma RoyalFlushKey()
    ensures Key(RoyalFlushHand) == [12, 11, 10, 9, 8]
  {
    RoyalFlushCounts();
    RoyalFlushKeyCounts();
    RoyalFlushKeyOrder();
    KeyFrom(RoyalFlushHand, [0, 0, 0, 0, 0, 0, 0, 0, 1, 1, 1, 1, 1], [12, 11, 10, 9, 8]);
  }

  /** The straight-flush fixture: 6 to 10 of hearts. */
  const StraightFlushHand: seq<Card> := [Card(Hearts, Pip(9)), Card(Hearts, Pip(6)), Card(Hearts, Pip(7)), Card(Hearts, Pip(8)), Card(Hearts, Pip(10))]

  lemma StraightFlushCounts()
    ensures Counts(StraightFlushHand) == [0, 0, 0, 0, 1, 1, 1, 1, 1, 0, 0, 0, 0]
  {
    var h := StraightFlushHand;
    assert h[..1][..0] == [];
    assert Counts(h[..1]) == [0, 0, 0, 0, 0, 0, 0, 1, 0, 0, 0, 0, 0];
    assert h[..2][..1] == h[..1];
    assert Counts(h[..2]) == [0, 0, 0, 0, 1, 0, 0, 1, 0, 0, 0, 0, 0];
    assert h[..3][..2] == h[..2];
    assert Counts(h[..3]) == [0, 0, 0, 0, 1, 1, 0, 1, 0, 0, 0, 0, 0];
    assert h[..4][..3] == h[..3];
    assert Counts(h[..4]) == [0, 0, 0, 0, 1, 1, 1, 1, 0, 0, 0, 0, 0];
    assert h[..4] == h[..|h| - 1];
  }

  /** The suit-level checks: flush and royal flush. */
  lemma StraightFlushSuits()
    ensures IsFlush(StraightFlushHand)
    ensures !IsRoyalFlush(StraightFlushHand)
  {
    assert StraightFlushHand[0].val in ValueSet(StraightFlushHand);
  }

  /** The straight check on the rank-count array. */
  lemma StraightFlushRun()
    ensures IsStraight(Counts(StraightFlushHand))
  {
    StraightFlushCounts();
    var daa := Counts(StraightFlushHand);
    StraightIsOnesRun(daa);
    assert OnesRun(AceExtended(daa), 5);
  }

  /** Every check ranked above StraightFlush fails and StraightFlush holds. */
  lemma StraightFlushHolds()
    ensures !Holds(RoyalFlush, StraightFlushHand)
    ensures Holds(StraightFlush, StraightFlushHand)
  {
    StraightFlushSuits();
    StraightFlushRun();
  }

  /** The best category is StraightFlush. */
  lemma StraightFlushCategory()
    ensures Classify(StraightFlushHand) == StraightFlush
  {
    StraightFlushHolds();
    ClassifyIs(StraightFlushHand, StraightFlush);
  }

  lemma StraightFlushKeyCounts()
    ensures KeyCounts([0, 0, 0, 0, 1, 1, 1, 1, 1, 0, 0, 0, 0], [8, 7, 6, 5, 4])
  {
  }

  lemma StraightFlushKeyOrder()
    ensures KeyOrder([0, 0, 0, 0, 1, 1, 1, 1, 1, 0, 0, 0, 0], [8, 7, 6, 5, 4])
  {
  }

  /** The tie-break key the test expects. */
  lemma StraightFlushKey()
    ensures Key(StraightFlushHand) == [8, 7, 6, 5, 4]
  {
    StraightFlushCounts();
    StraightFlushKeyCounts();
    StraightFlushKeyOrder();
    KeyFrom(StraightFlushHand, [0, 0, 0, 0, 1, 1, 1, 1, 1, 0, 0, 0, 0], [8, 7, 6, 5, 4]);
  }

  /** The four-of-a-kind fixture: four aces and a ten. */
  const FourOfAKindHand: seq<Card> := [Card(Clubs, Ace), Card(Hearts, Ace), Card(Diamonds, Ace), Card(Spades, Ace), Card(Hearts, Pip(10))]

  lemma FourOfAKindCounts()
    ensures Counts(FourOfAKindHand) == [0, 0, 0, 0, 0, 0, 0, 0, 1, 0, 0, 0, 4]
  {
    var h := FourOfAKindHand;
    assert h[..1][..0] == [];
    assert Counts(h[..1]) == [0, 0, 0, 0, 0, 0, 0, 0, 0, 0, 0, 0, 1];
    assert h[..2][..1] == h[..1];
    assert Counts(h[..2]) == [0, 0, 0, 0, 0, 0, 0, 0, 0, 0, 0, 0, 2];
    assert h[..3][..2] == h[..2];
    assert Counts(h[..3]) == [0, 0, 0, 0, 0, 0, 0, 0, 0, 0, 0, 0, 3];
    assert h[..4][..3] == h[..3];
    assert Counts(h[..4]) == [0, 0, 0, 0, 0, 0, 0, 0, 0, 0, 0, 0, 4];
    assert h[..4] == h[..|h| - 1];
  }

  /** The suit-level checks: flush and royal flush. */
  lemma FourOfAKindSuits()
    ensures !IsFlush(FourOfAKindHand)
    ensures !IsRoyalFlush(FourOfAKindHand)
  {
    assert FourOfAKindHand[1].suit != FourOfAKindHand[0].suit;
  }

  /** The largest count. */
  lemma FourOfAKindMax()
    ensures Max(Counts(FourOfAKindHand)) == 4
  {
    FourOfAKindCounts();
    MaxIs(Counts(FourOfAKindHand), 4);
  }

  /** The verdicts of the suit and straight checks. */
  lemma FourOfAKindShape()
    ensures !Holds(RoyalFlush, FourOfAKindHand)
    ensures !Holds(StraightFlush, FourOfAKindHand)
  {
    FourOfAKindSuits();
  }

  /** The verdicts of the checks on repeated values. */
  lemma FourOfAKindGroups()
    ensures Holds(FourOfAKind, FourOfAKindHand)
  {
    FourOfAKindMax();
  }

  /** Every check ranked above FourOfAKind fails and FourOfAKind holds. */
  lemma FourOfAKindHolds()
    ensures !Holds(RoyalFlush, FourOfAKindHand)
    ensures !Holds(StraightFlush, FourOfAKindHand)
    ensures Holds(FourOfAKind, FourOfAKindHand)
  {
    FourOfAKindShape();
    FourOfAKindGroups();
  }

  /** The best category is FourOfAKind. */
  lemma FourOfAKindCategory()
    ensures Classify(FourOfAKindHand) == FourOfAKind
  {
    FourOfAKindHolds();
    ClassifyIs(FourOfAKindHand, FourOfAKind);
  }

  lemma FourOfAKindKeyCounts()
    ensures KeyCounts([0, 0, 0, 0, 0, 0, 0, 0, 1, 0, 0, 0, 4], [12, 12, 12, 12, 8])
  {
  }

  lemma FourOfAKindKeyOrder()
    ensures KeyOrder([0, 0, 0, 0, 0, 0, 0, 0, 1, 0, 0, 0, 4], [12, 12, 12, 12, 8])
  {
  }

  /** The tie-break key the test expects. */
  lemma FourOfAKindKey()
    ensures Key(FourOfAKindHand) == [12, 12, 12, 12, 8]
  {
    FourOfAKindCounts();
    FourOfAKindKeyCounts();
    FourOfAKindKeyOrder();
    KeyFrom(FourOfAKindHand, [0, 0, 0, 0, 0, 0, 0, 0, 1, 0, 0, 0, 4], [12, 12, 12, 12, 8]);
  }

  /** The full-house fixture: three queens and two tens. */
  const FullHouseHand: seq<Card> := [Card(Clubs, Queen), Card(Hearts, Queen), Card(Diamonds, Queen), Card(Spades, Pip(10)), Card(Hearts, Pip(10))]

  lemma FullHouseCounts()
    ensures Counts(FullHouseHand) == [0, 0, 0, 0, 0, 0, 0, 0, 2, 0, 3, 0, 0]
  {
    var h := FullHouseHand;
    assert h[..1][..0] == [];
    assert Counts(h[..1]) == [0, 0, 0, 0, 0, 0, 0, 0, 0, 0, 1, 0, 0];
    assert h[..2][..1] == h[..1];
    assert Counts(h[..2]) == [0, 0, 0, 0, 0, 0, 0, 0, 0, 0, 2, 0, 0];
    assert h[..3][..2] == h[..2];
    assert Counts(h[..3]) == [0, 0, 0, 0, 0, 0, 0, 0, 0, 0, 3, 0, 0];
    assert h[..4][..3] == h[..3];
    assert Counts(h[..4]) == [0, 0, 0, 0, 0, 0, 0, 0, 1, 0, 3, 0, 0];
    assert h[..4] == h[..|h| - 1];
  }

  /** The suit-level checks: flush and royal flush. */
  lemma FullHouseSuits()
    ensures !IsFlush(FullHouseHand)
    ensures !IsRoyalFlush(FullHouseHand)
  {
    assert FullHouseHand[1].suit != FullHouseHand[0].suit;
  }

  /** The largest count. */
  lemma FullHouseMax()
    ensures Max(Counts(FullHouseHand)) == 3
  {
    FullHouseCounts();
    MaxIs(Counts(FullHouseHand), 3);
  }

  lemma FullHousePairs()
    ensures CountOf([0, 0, 0, 0, 0, 0, 0, 0, 2, 0, 3, 0, 0], 3) == 1 && CountOf([0, 0, 0, 0, 0, 0, 0, 0, 2, 0, 3, 0, 0], 2) == 1
  {
  }

  /** How many slots hold three cards and how many hold two. */
  lemma FullHouseTally()
    ensures CountOf(Counts(FullHouseHand), 3) == 1 && CountOf(Counts(FullHouseHand), 2) == 1
  {
    FullHouseCounts();
    FullHousePairs();
  }

  /** The verdicts of the suit and straight checks. */
  lemma FullHouseShape()
    ensures !Holds(RoyalFlush, FullHouseHand)
    ensures !Holds(StraightFlush, FullHouseHand)
  {
    FullHouseSuits();
  }

  /** The verdicts of the checks on repeated values. */
  lemma FullHouseGroups()
    ensures !Holds(FourOfAKind, FullHouseHand)
    ensures Holds(FullHouse, FullHouseHand)
  {
    FullHouseMax();
    FullHouseTally();
  }

  /** Every check ranked above FullHouse fails and FullHouse holds. */
  lemma FullHouseHolds()
    ensures !Holds(RoyalFlush, FullHouseHand)
    ensures !Holds(StraightFlush, FullHouseHand)
    ensures !Holds(FourOfAKind, FullHouseHand)
    ensures Holds(FullHouse, FullHouseHand)
  {
    FullHouseShape();
    FullHouseGroups();
  }

  /** The best category is FullHouse. */
  lemma FullHouseCategory()
    ensures Classify(FullHouseHand) == FullHouse
  {
    FullHouseHolds();
    ClassifyIs(FullHouseHand, FullHouse);
  }

  lemma FullHouseKeyCounts()
    ensures KeyCounts([0, 0, 0, 0, 0, 0, 0, 0, 2, 0, 3, 0, 0], [10, 10, 10, 8, 8])
  {
  }

  lemma FullHouseKeyOrder()
    ensures KeyOrder([0, 0, 0, 0, 0, 0, 0, 0, 2, 0, 3, 0, 0], [10, 10, 10, 8, 8])
  {
  }

  /** The tie-break key the test expects. */
  lemma FullHouseKey()
    ensures Key(FullHouseHand) == [10, 10, 10, 8, 8]
  {
    FullHouseCounts();
    FullHouseKeyCounts();
    FullHouseKeyOrder();
    KeyFrom(FullHouseHand, [0, 0, 0, 0, 0, 0, 0, 0, 2, 0, 3, 0, 0], [10, 10, 10, 8, 8]);
  }

  /** The flush fixture: A J 9 2 10 of clubs. */
  const FlushHand: seq<Card> := [Card(Clubs, Ace), Card(Clubs, Jack), Card(Clubs, Pip(9)), Card(Clubs, Pip(2)), Card(Clubs, Pip(10))]

  lemma FlushCounts()
    ensures Counts(FlushHand) == [1, 0, 0, 0, 0, 0, 0, 1, 1, 1, 0, 0, 1]
  {
    var h := FlushHand;
    assert h[..1][..0] == [];
    assert Counts(h[..1]) == [0, 0, 0, 0, 0, 0, 0, 0, 0, 0, 0, 0, 1];
    assert h[..2][..1] == h[..1];
    assert Counts(h[..2]) == [0, 0, 0, 0, 0, 0, 0, 0, 0, 1, 0, 0, 1];
    assert h[..3][..2] == h[..2];
    assert Counts(h[..3]) == [0, 0, 0, 0, 0, 0, 0, 1, 0, 1, 0, 0, 1];
    assert h[..4][..3] == h[..3];
    assert Counts(h[..4]) == [1, 0, 0, 0, 0, 0, 0, 1, 0, 1, 0, 0, 1];
    assert h[..4] == h[..|h| - 1];
  }

  /** The suit-level checks: flush and royal flush. */
  lemma FlushSuits()
    ensures IsFlush(FlushHand)
    ensures !IsRoyalFlush(FlushHand)
  {
    assert FlushHand[2].val in ValueSet(FlushHand);
  }

  /** The straight check on the rank-count array. */
  lemma FlushRun()
    ensures !IsStraight(Counts(FlushHand))
  {
    FlushCounts();
    var daa := Counts(FlushHand);
    StraightIsOnesRun(daa);
    RunBlocked(AceExtended(daa), 4);
    RunBlocked(AceExtended(daa), 7);
    RunBlocked(AceExtended(daa), 12);
  }

  /** The largest count. */
  lemma FlushMax()
    ensures Max(Counts(FlushHand)) == 1
  {
    FlushCounts();
    MaxIs(Counts(FlushHand), 1);
  }

  lemma FlushPairs()
    ensures CountOf([1, 0, 0, 0, 0, 0, 0, 1, 1, 1, 0, 0, 1], 3) == 0 && CountOf([1, 0, 0, 0, 0, 0, 0, 1, 1, 1, 0, 0, 1], 2) == 0
  {
  }

  /** How many slots hold three cards and how many hold two. */
  lemma FlushTally()
    ensures CountOf(Counts(FlushHand), 3) == 0 && CountOf(Counts(FlushHand), 2) == 0
  {
    FlushCounts();
    FlushPairs();
  }

  /** The verdicts of the suit and straight checks. */
  lemma FlushShape()
    ensures !Holds(RoyalFlush, FlushHand)
    ensures !Holds(StraightFlush, FlushHand)
    ensures Holds(Flush, FlushHand)
  {
    FlushSuits();
    FlushRun();
  }

  /** The verdicts of the checks on repeated values. */
  lemma FlushGroups()
    ensures !Holds(FourOfAKind, FlushHand)
    ensures !Holds(FullHouse, FlushHand)
  {
    FlushMax();
    FlushTally();
  }

  /** Every check ranked above Flush fails and Flush holds. */
  lemma FlushHolds()
    ensures !Holds(RoyalFlush, FlushHand)
    ensures !Holds(StraightFlush, FlushHand)
    ensures !Holds(FourOfAKind, FlushHand)
    ensures !Holds(FullHouse, FlushHand)
    ensures Holds(Flush, FlushHand)
  {
    FlushShape();
    FlushGroups();
  }

  /** The best category is Flush. */
  lemma FlushCategory()
    ensures Classify(FlushHand) == Flush
  {
    FlushHolds();
    ClassifyIs(FlushHand, Flush);
  }

  lemma FlushKeyCounts()
    ensures KeyCounts([1, 0, 0, 0, 0, 0, 0, 1, 1, 1, 0, 0, 1], [12, 9, 8, 7, 0])
  {
  }

  lemma FlushKeyOrder()
    ensures KeyOrder([1, 0, 0, 0, 0, 0, 0, 1, 1, 1, 0, 0, 1], [12, 9, 8, 7, 0])
  {
  }

  /** The tie-break key the test expects. */
  lemma FlushKey()
    ensures Key(FlushHand) == [12, 9, 8, 7, 0]
  {
    FlushCounts();
    FlushKeyCounts();
    FlushKeyOrder();
    KeyFrom(FlushHand, [1, 0, 0, 0, 0, 0, 0, 1, 1, 1, 0, 0, 1], [12, 9, 8, 7, 0]);
  }

  /** The straight fixture: 10 to A in mixed suits. */
  const StraightHand: seq<Card> := [Card(Clubs, Ace), Card(Hearts, King), Card(Diamonds, Queen), Card(Spades, Jack), Card(Hearts, Pip(10))]

  lemma StraightCounts()
    ensures Counts(StraightHand) == [0, 0, 0, 0, 0, 0, 0, 0, 1, 1, 1, 1, 1]
  {
    var h := StraightHand;
    assert h[..1][..0] == [];
    assert Counts(h[..1]) == [0, 0, 0, 0, 0, 0, 0, 0, 0, 0, 0, 0, 1];
    assert h[..2][..1] == h[..1];
    assert Counts(h[..2]) == [0, 0, 0, 0, 0, 0, 0, 0, 0, 0, 0, 1, 1];
    assert h[..3][..2] == h[..2];
    assert Counts(h[..3]) == [0, 0, 0, 0, 0, 0, 0, 0, 0, 0, 1, 1, 1];
    assert h[..4][..3] == h[..3];
    assert Counts(h[..4]) == [0, 0, 0, 0, 0, 0, 0, 0, 0, 1, 1, 1, 1];
    assert h[..4] == h[..|h| - 1];
  }

  /** The suit-level checks: flush and royal flush. */
  lemma StraightSuits()
    ensures !IsFlush(StraightHand)
    ensures !IsRoyalFlush(StraightHand)
  {
    assert StraightHand[1].suit != StraightHand[0].suit;
  }

  /** The straight check on the rank-count array. */
  lemma StraightRun()
    ensures IsStraight(Counts(StraightHand))
  {
    StraightCounts();
    var daa := Counts(StraightHand);
    StraightIsOnesRun(daa);
    assert OnesRun(AceExtended(daa), 9);
  }

  /** The largest count. */
  lemma StraightMax()
    ensures Max(Counts(StraightHand)) == 1
  {
    StraightCounts();
    MaxIs(Counts(StraightHand), 1);
  }

  lemma StraightPairs()
    ensures CountOf([0, 0, 0, 0, 0, 0, 0, 0, 1, 1, 1, 1, 1], 3) == 0 && CountOf([0, 0, 0, 0, 0, 0, 0, 0, 1, 1, 1, 1, 1], 2) == 0
  {
  }

  /** How many slots hold three cards and how many hold two. */
  lemma StraightTally()
    ensures CountOf(Counts(StraightHand), 3) == 0 && CountOf(Counts(StraightHand), 2) == 0
  {
    StraightCounts();
    StraightPairs();
  }

  /** The verdicts of the suit and straight checks. */
  lemma StraightShape()
    ensures !Holds(RoyalFlush, StraightHand)
    ensures !Holds(StraightFlush, StraightHand)
    ensures !Holds(Flush, StraightHand)
    ensures Holds(Straight, StraightHand)
  {
    StraightSuits();
    StraightRun();
  }

  /** The verdicts of the checks on repeated values. */
  lemma StraightGroups()
    ensures !Holds(FourOfAKind, StraightHand)
    ensures !Holds(FullHouse, StraightHand)
  {
    StraightMax();
    StraightTally();
  }

  /** Every check ranked above Straight fails and Straight holds. */
  lemma StraightHolds()
    ensures !Holds(RoyalFlush, StraightHand)
    ensures !Holds(StraightFlush, StraightHand)
    ensures !Holds(FourOfAKind, StraightHand)
    ensures !Holds(FullHouse, StraightHand)
    ensures !Holds(Flush, StraightHand)
    ensures Holds(Straight, StraightHand)
  {
    StraightShape();
    StraightGroups();
  }

  /** The best category is Straight. */
  lemma StraightCategory()
    ensures Classify(StraightHand) == Straight
  {
    StraightHolds();
    ClassifyIs(StraightHand, Straight);
  }

  lemma StraightKeyCounts()
    ensures KeyCounts([0, 0, 0, 0, 0, 0, 0, 0, 1, 1, 1, 1, 1], [12, 11, 10, 9, 8])
  {
  }

  lemma StraightKeyOrder()
    ensures KeyOrder([0, 0, 0, 0, 0, 0, 0, 0, 1, 1, 1, 1, 1], [12, 11, 10, 9, 8])
  {
  }

  /** The tie-break key the test expects. */
  lemma StraightKey()
    ensures Key(StraightHand) == [12, 11, 10, 9, 8]
  {
    StraightCounts();
    StraightKeyCounts();
    StraightKeyOrder();
    KeyFrom(StraightHand, [0, 0, 0, 0, 0, 0, 0, 0, 1, 1, 1, 1, 1], [12, 11, 10, 9, 8]);
  }

  /** The three-of-a-kind fixture: three tens, a queen and a jack. */
  const ThreeOfAKindHand: seq<Card> := [Card(Clubs, Pip(10)), Card(Hearts, Pip(10)), Card(Diamonds, Queen), Card(Spades, Jack), Card(Spades, Pip(10))]

  lemma ThreeOfAKindCounts()
    ensures Counts(ThreeOfAKindHand) == [0, 0, 0, 0, 0, 0, 0, 0, 3, 1, 1, 0, 0]
  {
    var h := ThreeOfAKindHand;
    assert h[..1][..0] == [];
    assert Counts(h[..1]) == [0, 0, 0, 0, 0, 0, 0, 0, 1, 0, 0, 0, 0];
    assert h[..2][..1] == h[..1];
    assert Counts(h[..2]) == [0, 0, 0, 0, 0, 0, 0, 0, 2, 0, 0, 0, 0];
    assert h[..3][..2] == h[..2];
    assert Counts(h[..3]) == [0, 0, 0, 0, 0, 0, 0, 0, 2, 0, 1, 0, 0];
    assert h[..4][..3] == h[..3];
    assert Counts(h[..4]) == [0, 0, 0, 0, 0, 0, 0, 0, 2, 1, 1, 0, 0];
    assert h[..4] == h[..|h| - 1];
  }

  /** The suit-level checks: flush and royal flush. */
  lemma ThreeOfAKindSuits()
    ensures !IsFlush(ThreeOfAKindHand)
    ensures !IsRoyalFlush(ThreeOfAKindHand)
  {
    assert ThreeOfAKindHand[1].suit != ThreeOfAKindHand[0].suit;
  }

  /** The straight check on the rank-count array. */
  lemma ThreeOfAKindRun()
    ensures !IsStraight(Counts(ThreeOfAKindHand))
  {
    ThreeOfAKindCounts();
    var daa := Counts(ThreeOfAKindHand);
    StraightIsOnesRun(daa);
    RunBlocked(AceExtended(daa), 4);
    RunBlocked(AceExtended(daa), 9);
  }

  /** The largest count. */
  lemma ThreeOfAKindMax()
    ensures Max(Counts(ThreeOfAKindHand)) == 3
  {
    ThreeOfAKindCounts();
    MaxIs(Counts(ThreeOfAKindHand), 3);
  }

  lemma ThreeOfAKindPairs()
    ensures CountOf([0, 0, 0, 0, 0, 0, 0, 0, 3, 1, 1, 0, 0], 3) == 1 && CountOf([0, 0, 0, 0, 0, 0, 0, 0, 3, 1, 1, 0, 0], 2) == 0
  {
  }

  /** How many slots hold three cards and how many hold two. */
  lemma ThreeOfAKindTally()
    ensures CountOf(Counts(ThreeOfAKindHand), 3) == 1 && CountOf(Counts(ThreeOfAKindHand), 2) == 0
  {
    ThreeOfAKindCounts();
    ThreeOfAKindPairs();
  }

  /** The verdicts of the suit and straight checks. */
  lemma ThreeOfAKindShape()
    ensures !Holds(RoyalFlush, ThreeOfAKindHand)
    ensures !Holds(StraightFlush, ThreeOfAKindHand)
    ensures !Holds(Flush, ThreeOfAKindHand)
    ensures !Holds(Straight, ThreeOfAKindHand)
  {
    ThreeOfAKindSuits();
    ThreeOfAKindRun();
  }

  /** The verdicts of the checks on repeated values. */
  lemma ThreeOfAKindGroups()
    ensures !Holds(FourOfAKind, ThreeOfAKindHand)
    ensures !Holds(FullHouse, ThreeOfAKindHand)
    ensures Holds(ThreeOfAKind, ThreeOfAKindHand)
  {
    ThreeOfAKindMax();
    ThreeOfAKindTally();
  }

  /** Every check ranked above ThreeOfAKind fails and ThreeOfAKind holds. */
  lemma ThreeOfAKindHolds()
    ensures !Holds(RoyalFlush, ThreeOfAKindHand)
    ensures !Holds(StraightFlush, ThreeOfAKindHand)
    ensures !Holds(FourOfAKind, ThreeOfAKindHand)
    ensures !Holds(FullHouse, ThreeOfAKindHand)
    ensures !Holds(Flush, ThreeOfAKindHand)
    ensures !Holds(Straight, ThreeOfAKindHand)
    ensures Holds(ThreeOfAKind, ThreeOfAKindHand)
  {
    ThreeOfAKindShape();
    ThreeOfAKindGroups();
  }

  /** The best category is ThreeOfAKind. */
  lemma ThreeOfAKindCategory()
    ensures Classify(ThreeOfAKindHand) == ThreeOfAKind
  {
    ThreeOfAKindHolds();
    ClassifyIs(ThreeOfAKindHand, ThreeOfAKind);
  }

  lemma ThreeOfAKindKeyCounts()
    ensures KeyCounts([0, 0, 0, 0, 0, 0, 0, 0, 3, 1, 1, 0, 0], [8, 8, 8, 10, 9])
  {
  }

  lemma ThreeOfAKindKeyOrder()
    ensures KeyOrder([0, 0, 0, 0, 0, 0, 0, 0, 3, 1, 1, 0, 0], [8, 8, 8, 10, 9])
  {
  }

  /** The tie-break key the test expects. */
  lemma ThreeOfAKindKey()
    ensures Key(ThreeOfAKindHand) == [8, 8, 8, 10, 9]
  {
    ThreeOfAKindCounts();
    ThreeOfAKindKeyCounts();
    ThreeOfAKindKeyOrder();
    KeyFrom(ThreeOfAKindHand, [0, 0, 0, 0, 0, 0, 0, 0, 3, 1, 1, 0, 0], [8, 8, 8, 10, 9]);
  }

  /** The two-pair fixture: two kings, two nines and a jack. */
  const TwoPairHand: seq<Card> := [Card(Clubs, King), Card(Hearts, King), Card(Diamonds, Pip(9)), Card(Spades, Jack), Card(Spades, Pip(9))]

  lemma TwoPairCounts()
    ensures Counts(TwoPairHand) == [0, 0, 0, 0, 0, 0, 0, 2, 0, 1, 0, 2, 0]
  {
    var h := TwoPairHand;
    assert h[..1][..0] == [];
    assert Counts(h[..1]) == [0, 0, 0, 0, 0, 0, 0, 0, 0, 0, 0, 1, 0];
    assert h[..2][..1] == h[..1];
    assert Counts(h[..2]) == [0, 0, 0, 0, 0, 0, 0, 0, 0, 0, 0, 2, 0];
    assert h[..3][..2] == h[..2];
    assert Counts(h[..3]) == [0, 0, 0, 0, 0, 0, 0, 1, 0, 0, 0, 2, 0];
    assert h[..4][..3] == h[..3];
    assert Counts(h[..4]) == [0, 0, 0, 0, 0, 0, 0, 1, 0, 1, 0, 2, 0];
    assert h[..4] == h[..|h| - 1];
  }

  /** The suit-level checks: flush and royal flush. */
  lemma TwoPairSuits()
    ensures !IsFlush(TwoPairHand)
    ensures !IsRoyalFlush(TwoPairHand)
  {
    assert TwoPairHand[1].suit != TwoPairHand[0].suit;
  }

  /** The straight check on the rank-count array. */
  lemma TwoPairRun()
    ensures !IsStraight(Counts(TwoPairHand))
  {
    TwoPairCounts();
    var daa := Counts(TwoPairHand);
    StraightIsOnesRun(daa);
    RunBlocked(AceExtended(daa), 4);
    RunBlocked(AceExtended(daa), 9);
  }

  /** The largest count. */
  lemma TwoPairMax()
    ensures Max(Counts(TwoPairHand)) == 2
  {
    TwoPairCounts();
    MaxIs(Counts(TwoPairHand), 2);
  }

  lemma TwoPairPairs()
    ensures CountOf([0, 0, 0, 0, 0, 0, 0, 2, 0, 1, 0, 2, 0], 3) == 0 && CountOf([0, 0, 0, 0, 0, 0, 0, 2, 0, 1, 0, 2, 0], 2) == 2
  {
  }

  /** How many slots hold three cards and how many hold two. */
  lemma TwoPairTally()
    ensures CountOf(Counts(TwoPairHand), 3) == 0 && CountOf(Counts(TwoPairHand), 2) == 2
  {
    TwoPairCounts();
    TwoPairPairs();
  }

  /** The verdicts of the suit and straight checks. */
  lemma TwoPairShape()
    ensures !Holds(RoyalFlush, TwoPairHand)
    ensures !Holds(StraightFlush, TwoPairHand)
    ensures !Holds(Flush, TwoPairHand)
    ensures !Holds(Straight, TwoPairHand)
  {
    TwoPairSuits();
    TwoPairRun();
  }

  /** The verdicts of the checks on repeated values. */
  lemma TwoPairGroups()
    ensures !Holds(FourOfAKind, TwoPairHand)
    ensures !Holds(FullHouse, TwoPairHand)
    ensures !Holds(ThreeOfAKind, TwoPairHand)
    ensures Holds(TwoPair, TwoPairHand)
  {
    TwoPairMax();
    TwoPairTally();
  }

  /** Every check ranked above TwoPair fails and TwoPair holds. */
  lemma TwoPairHolds()
    ensures !Holds(RoyalFlush, TwoPairHand)
    ensures !Holds(StraightFlush, TwoPairHand)
    ensures !Holds(FourOfAKind, TwoPairHand)
    ensures !Holds(FullHouse, TwoPairHand)
    ensures !Holds(Flush, TwoPairHand)
    ensures !Holds(Straight, TwoPairHand)
    ensures !Holds(ThreeOfAKind, TwoPairHand)
    ensures Holds(TwoPair, TwoPairHand)
  {
    TwoPairShape();
    TwoPairGroups();
  }

  /** The best category is TwoPair. */
  lemma TwoPairCategory()
    ensures Classify(TwoPairHand) == TwoPair
  {
    TwoPairHolds();
    ClassifyIs(TwoPairHand, TwoPair);
  }

  lemma TwoPairKeyCounts()
    ensures KeyCounts([0, 0, 0, 0, 0, 0, 0, 2, 0, 1, 0, 2, 0], [11, 11, 7, 7, 9])
  {
  }

  lemma TwoPairKeyOrder()
    ensures KeyOrder([0, 0, 0, 0, 0, 0, 0, 2, 0, 1, 0, 2, 0], [11, 11, 7, 7, 9])
  {
  }

  /** The tie-break key the test expects. */
  lemma TwoPairKey()
    ensures Key(TwoPairHand) == [11, 11, 7, 7, 9]
  {
    TwoPairCounts();
    TwoPairKeyCounts();
    TwoPairKeyOrder();
    KeyFrom(TwoPairHand, [0, 0, 0, 0, 0, 0, 0, 2, 0, 1, 0, 2, 0], [11, 11, 7, 7, 9]);
  }

  /** The one-pair fixture: two twos, a nine, a four and a ten. */
  const OnePairHand: seq<Card> := [Card(Hearts, Pip(2)), Card(Hearts, Pip(9)), Card(Hearts, Pip(4)), Card(Hearts, Pip(10)), Card(Spades, Pip(2))]

  lemma OnePairCounts()
    ensures Counts(OnePairHand) == [2, 0, 1, 0, 0, 0, 0, 1, 1, 0, 0, 0, 0]
  {
    var h := OnePairHand;
    assert h[..1][..0] == [];
    assert Counts(h[..1]) == [1, 0, 0, 0, 0, 0, 0, 0, 0, 0, 0, 0, 0];
    assert h[..2][..1] == h[..1];
    assert Counts(h[..2]) == [1, 0, 0, 0, 0, 0, 0, 1, 0, 0, 0, 0, 0];
    assert h[..3][..2] == h[..2];
    assert Counts(h[..3]) == [1, 0, 1, 0, 0, 0, 0, 1, 0, 0, 0, 0, 0];
    assert h[..4][..3] == h[..3];
    assert Counts(h[..4]) == [1, 0, 1, 0, 0, 0, 0, 1, 1, 0, 0, 0, 0];
    assert h[..4] == h[..|h| - 1];
  }

  /** The suit-level checks: flush and royal flush. */
  lemma OnePairSuits()
    ensures !IsFlush(OnePairHand)
    ensures !IsRoyalFlush(OnePairHand)
  {
    assert OnePairHand[4].suit != OnePairHand[0].suit;
  }

  /** The straight check on the rank-count array. */
  lemma OnePairRun()
    ensures !IsStraight(Counts(OnePairHand))
  {
    OnePairCounts();
    var daa := Counts(OnePairHand);
    StraightIsOnesRun(daa);
    RunBlocked(AceExtended(daa), 4);
    RunBlocked(AceExtended(daa), 7);
    RunBlocked(AceExtended(daa), 12);
  }

  /** The largest count. */
  lemma OnePairMax()
    ensures Max(Counts(OnePairHand)) == 2
  {
    OnePairCounts();
    MaxIs(Counts(OnePairHand), 2);
  }

  lemma OnePairPairs()
    ensures CountOf([2, 0, 1, 0, 0, 0, 0, 1, 1, 0, 0, 0, 0], 3) == 0 && CountOf([2, 0, 1, 0, 0, 0, 0, 1, 1, 0, 0, 0, 0], 2) == 1
  {
  }

  /** How many slots hold three cards and how many hold two. */
  lemma OnePairTally()
    ensures CountOf(Counts(OnePairHand), 3) == 0 && CountOf(Counts(OnePairHand), 2) == 1
  {
    OnePairCounts();
    OnePairPairs();
  }

  /** The verdicts of the suit and straight checks. */
  lemma OnePairShape()
    ensures !Holds(RoyalFlush, OnePairHand)
    ensures !Holds(StraightFlush, OnePairHand)
    ensures !Holds(Flush, OnePairHand)
    ensures !Holds(Straight, OnePairHand)
  {
    OnePairSuits();
    OnePairRun();
  }

  /** The verdicts of the checks on repeated values. */
  lemma OnePairGroups()
    ensures !Holds(FourOfAKind, OnePairHand)
    ensures !Holds(FullHouse, OnePairHand)
    ensures !Holds(ThreeOfAKind, OnePairHand)
    ensures !Holds(TwoPair, OnePairHand)
    ensures Holds(OnePair, OnePairHand)
  {
    OnePairMax();
    OnePairTally();
  }

  /** Every check ranked above OnePair fails and OnePair holds. */
  lemma OnePairHolds()
    ensures !Holds(RoyalFlush, OnePairHand)
    ensures !Holds(StraightFlush, OnePairHand)
    ensures !Holds(FourOfAKind, OnePairHand)
    ensures !Holds(FullHouse, OnePairHand)
    ensures !Holds(Flush, OnePairHand)
    ensures !Holds(Straight, OnePairHand)
    ensures !Holds(ThreeOfAKind, OnePairHand)
    ensures !Holds(TwoPair, OnePairHand)
    ensures Holds(OnePair, OnePairHand)
  {
    OnePairShape();
    OnePairGroups();
  }

  /** The best category is OnePair. */
  lemma OnePairCategory()
    ensures Classify(OnePairHand) == OnePair
  {
    OnePairHolds();
    ClassifyIs(OnePairHand, OnePair);
  }

  lemma OnePairKeyCounts()
    ensures KeyCounts([2, 0, 1, 0, 0, 0, 0, 1, 1, 0, 0, 0, 0], [0, 0, 8, 7, 2])
  {
  }

  lemma OnePairKeyOrder()
    ensures KeyOrder([2, 0, 1, 0, 0, 0, 0, 1, 1, 0, 0, 0, 0], [0, 0, 8, 7, 2])
  {
  }

  /** The tie-break key the test expects. */
  lemma OnePairKey()
    ensures Key(OnePairHand) == [0, 0, 8, 7, 2]
  {
    OnePairCounts();
    OnePairKeyCounts();
    OnePairKeyOrder();
    KeyFrom(OnePairHand, [2, 0, 1, 0, 0, 0, 0, 1, 1, 0, 0, 0, 0], [0, 0, 8, 7, 2]);
  }

  /** The high-card fixture: A 3 9 8 10 in mixed suits. */
  const HighCardHand: seq<Card> := [Card(Hearts, Ace), Card(Diamonds, Pip(3)), Card(Clubs, Pip(9)), Card(Hearts, Pip(8)), Card(Spades, Pip(10))]

  lemma HighCardCounts()
    ensures Counts(HighCardHand) == [0, 1, 0, 0, 0, 0, 1, 1, 1, 0, 0, 0, 1]
  {
    var h := HighCardHand;
    assert h[..1][..0] == [];
    assert Counts(h[..1]) == [0, 0, 0, 0, 0, 0, 0, 0, 0, 0, 0, 0, 1];
    assert h[..2][..1] == h[..1];
    assert Counts(h[..2]) == [0, 1, 0, 0, 0, 0, 0, 0, 0, 0, 0, 0, 1];
    assert h[..3][..2] == h[..2];
    assert Counts(h[..3]) == [0, 1, 0, 0, 0, 0, 0, 1, 0, 0, 0, 0, 1];
    assert h[..4][..3] == h[..3];
    assert Counts(h[..4]) == [0, 1, 0, 0, 0, 0, 1, 1, 0, 0, 0, 0, 1];
    assert h[..4] == h[..|h| - 1];
  }

  /** The suit-level checks: flush and royal flush. */
  lemma HighCardSuits()
    ensures !IsFlush(HighCardHand)
    ensures !IsRoyalFlush(HighCardHand)
  {
    assert HighCardHand[1].suit != HighCardHand[0].suit;
  }

  /** The straight check on the rank-count array. */
  lemma HighCardRun()
    ensures !IsStraight(Counts(HighCardHand))
  {
    HighCardCounts();
    var daa := Counts(HighCardHand);
    StraightIsOnesRun(daa);
    RunBlocked(AceExtended(daa), 4);
    RunBlocked(AceExtended(daa), 6);
    RunBlocked(AceExtended(daa), 11);
  }

  /** The largest count. */
  lemma HighCardMax()
    ensures Max(Counts(HighCardHand)) == 1
  {
    HighCardCounts();
    MaxIs(Counts(HighCardHand), 1);
  }

  lemma HighCardPairs()
    ensures CountOf([0, 1, 0, 0, 0, 0, 1, 1, 1, 0, 0, 0, 1], 3) == 0 && CountOf([0, 1, 0, 0, 0, 0, 1, 1, 1, 0, 0, 0, 1], 2) == 0
  {
  }

  /** How many slots hold three cards and how many hold two. */
  lemma HighCardTally()
    ensures CountOf(Counts(HighCardHand), 3) == 0 && CountOf(Counts(HighCardHand), 2) == 0
  {
    HighCardCounts();
    HighCardPairs();
  }

  /** The verdicts of the suit and straight checks. */
  lemma HighCardShape()
    ensures !Holds(RoyalFlush, HighCardHand)
    ensures !Holds(StraightFlush, HighCardHand)
    ensures !Holds(Flush, HighCardHand)
    ensures !Holds(Straight, HighCardHand)
  {
    HighCardSuits();
    HighCardRun();
  }

  /** The verdicts of the checks on repeated values. */
  lemma HighCardGroups()
    ensures !Holds(FourOfAKind, HighCardHand)
    ensures !Holds(FullHouse, HighCardHand)
    ensures !Holds(ThreeOfAKind, HighCardHand)
    ensures !Holds(TwoPair, HighCardHand)
    ensures !Holds(OnePair, HighCardHand)
  {
    HighCardMax();
    HighCardTally();
  }

  /** Every check ranked above HighCard fails and HighCard holds. */
  lemma HighCardHolds()
    ensures !Holds(RoyalFlush, HighCardHand)
    ensures !Holds(StraightFlush, HighCardHand)
    ensures !Holds(FourOfAKind, HighCardHand)
    ensures !Holds(FullHouse, HighCardHand)
    ensures !Holds(Flush, HighCardHand)
    ensures !Holds(Straight, HighCardHand)
    ensures !Holds(ThreeOfAKind, HighCardHand)
    ensures !Holds(TwoPair, HighCardHand)
    ensures !Holds(OnePair, HighCardHand)
    ensures Holds(HighCard, HighCardHand)
  {
    HighCardShape();
    HighCardGroups();
  }

  /** The best category is HighCard. */
  lemma HighCardCategory()
    ensures Classify(HighCardHand) == HighCard
  {
    HighCardHolds();
    ClassifyIs(HighCardHand, HighCard);
  }

  lemma HighCardKeyCounts()
    ensures KeyCounts([0, 1, 0, 0, 0, 0, 1, 1, 1, 0, 0, 0, 1], [12, 8, 7, 6, 1])
  {
  }

  lemma HighCardKeyOrder()
    ensures KeyOrder([0, 1, 0, 0, 0, 0, 1, 1, 1, 0, 0, 0, 1], [12, 8, 7, 6, 1])
  {
  }

  /** The tie-break key the test expects. */
  lemma HighCardKey()
    ensures Key(HighCardHand) == [12, 8, 7, 6, 1]
  {
    HighCardCounts();
    HighCardKeyCounts();
    HighCardKeyOrder();
    KeyFrom(HighCardHand, [0, 1, 0, 0, 0, 0, 1, 1, 1, 0, 0, 0, 1], [12, 8, 7, 6, 1]);
  }

  /** Straight flush 2 to 6 of hearts. */
  const SfLowHand: seq<Card> := [Card(Hearts, Pip(2)), Card(Hearts, Pip(3)), Card(Hearts, Pip(4)), Card(Hearts, Pip(5)), Card(Hearts, Pip(6))]

  lemma SfLowCounts()
    ensures Counts(SfLowHand) == [1, 1, 1, 1, 1, 0, 0, 0, 0, 0, 0, 0, 0]
  {
    var h := SfLowHand;
    assert h[..1][..0] == [];
    assert Counts(h[..1]) == [1, 0, 0, 0, 0, 0, 0, 0, 0, 0, 0, 0, 0];
    assert h[..2][..1] == h[..1];
    assert Counts(h[..2]) == [1, 1, 0, 0, 0, 0, 0, 0, 0, 0, 0, 0, 0];
    assert h[..3][..2] == h[..2];
    assert Counts(h[..3]) == [1, 1, 1, 0, 0, 0, 0, 0, 0, 0, 0, 0, 0];
    assert h[..4][..3] == h[..3];
    assert Counts(h[..4]) == [1, 1, 1, 1, 0, 0, 0, 0, 0, 0, 0, 0, 0];
    assert h[..4] == h[..|h| - 1];
  }

  lemma SfLowStraightFlush()
    ensures IsFlush(SfLowHand) && IsStraightFlush(SfLowHand)
  {
    SfLowCounts();
    var daa := Counts(SfLowHand);
    StraightIsOnesRun(daa);
    assert OnesRun(AceExtended(daa), 1);
  }

  /** Straight flush A to 5 of hearts: the ace also counts low. */
  const SfWheelHand: seq<Card> := [Card(Hearts, Ace), Card(Hearts, Pip(2)), Card(Hearts, Pip(3)), Card(Hearts, Pip(4)), Card(Hearts, Pip(5))]

  lemma SfWheelCounts()
    ensures Counts(SfWheelHand) == [1, 1, 1, 1, 0, 0, 0, 0, 0, 0, 0, 0, 1]
  {
    var h := SfWheelHand;
    assert h[..1][..0] == [];
    assert Counts(h[..1]) == [0, 0, 0, 0, 0, 0, 0, 0, 0, 0, 0, 0, 1];
    assert h[..2][..1] == h[..1];
    assert Counts(h[..2]) == [1, 0, 0, 0, 0, 0, 0, 0, 0, 0, 0, 0, 1];
    assert h[..3][..2] == h[..2];
    assert Counts(h[..3]) == [1, 1, 0, 0, 0, 0, 0, 0, 0, 0, 0, 0, 1];
    assert h[..4][..3] == h[..3];
    assert Counts(h[..4]) == [1, 1, 1, 0, 0, 0, 0, 0, 0, 0, 0, 0, 1];
    assert h[..4] == h[..|h| - 1];
  }

  lemma SfWheelStraightFlush()
    ensures IsFlush(SfWheelHand) && IsStraightFlush(SfWheelHand)
  {
    SfWheelCounts();
    var daa := Counts(SfWheelHand);
    StraightIsOnesRun(daa);
    assert OnesRun(AceExtended(daa), 0);
  }

  /** Straight flush 9 to K of hearts. */
  const SfNineHand: seq<Card> := [Card(Hearts, Pip(9)), Card(Hearts, Pip(10)), Card(Hearts, Jack), Card(Hearts, Queen), Card(Hearts, King)]

  lemma SfNineCounts()
    ensures Counts(SfNineHand) == [0, 0, 0, 0, 0, 0, 0, 1, 1, 1, 1, 1, 0]
  {
    var h := SfNineHand;
    assert h[..1][..0] == [];
    assert Counts(h[..1]) == [0, 0, 0, 0, 0, 0, 0, 1, 0, 0, 0, 0, 0];
    assert h[..2][..1] == h[..1];
    assert Counts(h[..2]) == [0, 0, 0, 0, 0, 0, 0, 1, 1, 0, 0, 0, 0];
    assert h[..3][..2] == h[..2];
    assert Counts(h[..3]) == [0, 0, 0, 0, 0, 0, 0, 1, 1, 1, 0, 0, 0];
    assert h[..4][..3] == h[..3];
    assert Counts(h[..4]) == [0, 0, 0, 0, 0, 0, 0, 1, 1, 1, 1, 0, 0];
    assert h[..4] == h[..|h| - 1];
  }

  lemma SfNineStraightFlush()
    ensures IsFlush(SfNineHand) && IsStraightFlush(SfNineHand)
  {
    SfNineCounts();
    var daa := Counts(SfNineHand);
    StraightIsOnesRun(daa);
    assert OnesRun(AceExtended(daa), 8);
  }

  /** Straight flush 10 to A of hearts. */
  const SfTenHand: seq<Card> := [Card(Hearts, Pip(10)), Card(Hearts, Jack), Card(Hearts, Queen), Card(Hearts, King), Card(Hearts, Ace)]

  lemma SfTenCounts()
    ensures Counts(SfTenHand) == [0, 0, 0, 0, 0, 0, 0, 0, 1, 1, 1, 1, 1]
  {
    var h := SfTenHand;
    assert h[..1][..0] == [];
    assert Counts(h[..1]) == [0, 0, 0, 0, 0, 0, 0, 0, 1, 0, 0, 0, 0];
    assert h[..2][..1] == h[..1];
    assert Counts(h[..2]) == [0, 0, 0, 0, 0, 0, 0, 0, 1, 1, 0, 0, 0];
    assert h[..3][..2] == h[..2];
    assert Counts(h[..3]) == [0, 0, 0, 0, 0, 0, 0, 0, 1, 1, 1, 0, 0];
    assert h[..4][..3] == h[..3];
    assert Counts(h[..4]) == [0, 0, 0, 0, 0, 0, 0, 0, 1, 1, 1, 1, 0];
    assert h[..4] == h[..|h| - 1];
  }

  lemma SfTenStraightFlush()
    ensures IsFlush(SfTenHand) && IsStraightFlush(SfTenHand)
  {
    SfTenCounts();
    var daa := Counts(SfTenHand);
    StraightIsOnesRun(daa);
    assert OnesRun(AceExtended(daa), 9);
  }

  /** Not a straight flush: A 2 3 4 K of hearts (no wrap past the ace). */
  const NoSfAceKingHand: seq<Card> := [Card(Hearts, Ace), Card(Hearts, Pip(2)), Card(Hearts, Pip(3)), Card(Hearts, Pip(4)), Card(Hearts, King)]

  lemma NoSfAceKingCounts()
    ensures Counts(NoSfAceKingHand) == [1, 1, 1, 0, 0, 0, 0, 0, 0, 0, 0, 1, 1]
  {
    var h := NoSfAceKingHand;
    assert h[..1][..0] == [];
    assert Counts(h[..1]) == [0, 0, 0, 0, 0, 0, 0, 0, 0, 0, 0, 0, 1];
    assert h[..2][..1] == h[..1];
    assert Counts(h[..2]) == [1, 0, 0, 0, 0, 0, 0, 0, 0, 0, 0, 0, 1];
    assert h[..3][..2] == h[..2];
    assert Counts(h[..3]) == [1, 1, 0, 0, 0, 0, 0, 0, 0, 0, 0, 0, 1];
    assert h[..4][..3] == h[..3];
    assert Counts(h[..4]) == [1, 1, 1, 0, 0, 0, 0, 0, 0, 0, 0, 0, 1];
    assert h[..4] == h[..|h| - 1];
  }

  lemma NoSfAceKingStraightFlush()
    ensures IsFlush(NoSfAceKingHand) && !IsStraightFlush(NoSfAceKingHand)
  {
    NoSfAceKingCounts();
    var daa := Counts(NoSfAceKingHand);
    StraightIsOnesRun(daa);
    RunBlocked(AceExtended(daa), 4);
    RunBlocked(AceExtended(daa), 9);
  }

  /** Not a straight flush: J Q A 2 K of hearts. */
  const NoSfWrapHand: seq<Card> := [Card(Hearts, Jack), Card(Hearts, Queen), Card(Hearts, Ace), Card(Hearts, Pip(2)), Card(Hearts, King)]

  lemma NoSfWrapCounts()
    ensures Counts(NoSfWrapHand) == [1, 0, 0, 0, 0, 0, 0, 0, 0, 1, 1, 1, 1]
  {
    var h := NoSfWrapHand;
    assert h[..1][..0] == [];
    assert Counts(h[..1]) == [0, 0, 0, 0, 0, 0, 0, 0, 0, 1, 0, 0, 0];
    assert h[..2][..1] == h[..1];
    assert Counts(h[..2]) == [0, 0, 0, 0, 0, 0, 0, 0, 0, 1, 1, 0, 0];
    assert h[..3][..2] == h[..2];
    assert Counts(h[..3]) == [0, 0, 0, 0, 0, 0, 0, 0, 0, 1, 1, 0, 1];
    assert h[..4][..3] == h[..3];
    assert Counts(h[..4]) == [1, 0, 0, 0, 0, 0, 0, 0, 0, 1, 1, 0, 1];
    assert h[..4] == h[..|h| - 1];
  }

  lemma NoSfWrapStraightFlush()
    ensures IsFlush(NoSfWrapHand) && !IsStraightFlush(NoSfWrapHand)
  {
    NoSfWrapCounts();
    var daa := Counts(NoSfWrapHand);
    StraightIsOnesRun(daa);
    RunBlocked(AceExtended(daa), 4);
    RunBlocked(AceExtended(daa), 9);
  }

  /** Not a straight flush: K K 10 J Q of hearts. */
  const NoSfPairHand: seq<Card> := [Card(Hearts, King), Card(Hearts, King), Card(Hearts, Pip(10)), Card(Hearts, Jack), Card(Hearts, Queen)]

  lemma NoSfPairCounts()
    ensures Counts(NoSfPairHand) == [0, 0, 0, 0, 0, 0, 0, 0, 1, 1, 1, 2, 0]
  {
    var h := NoSfPairHand;
    assert h[..1][..0] == [];
    assert Counts(h[..1]) == [0, 0, 0, 0, 0, 0, 0, 0, 0, 0, 0, 1, 0];
    assert h[..2][..1] == h[..1];
    assert Counts(h[..2]) == [0, 0, 0, 0, 0, 0, 0, 0, 0, 0, 0, 2, 0];
    assert h[..3][..2] == h[..2];
    assert Counts(h[..3]) == [0, 0, 0, 0, 0, 0, 0, 0, 1, 0, 0, 2, 0];
    assert h[..4][..3] == h[..3];
    assert Counts(h[..4]) == [0, 0, 0, 0, 0, 0, 0, 0, 1, 1, 0, 2, 0];
    assert h[..4] == h[..|h| - 1];
  }

  lemma NoSfPairStraightFlush()
    ensures IsFlush(NoSfPairHand) && !IsStraightFlush(NoSfPairHand)
  {
    NoSfPairCounts();
    var daa := Counts(NoSfPairHand);
    StraightIsOnesRun(daa);
    RunBlocked(AceExtended(daa), 4);
    RunBlocked(AceExtended(daa), 8);
    RunBlocked(AceExtended(daa), 13);
  }

  /** Not a straight flush: 9 J Q A K of hearts. */
  const NoSfGapHand: seq<Card> := [Card(Hearts, Pip(9)), Card(Hearts, Jack), Card(Hearts, Queen), Card(Hearts, Ace), Card(Hearts, King)]

  lemma NoSfGapCounts()
    ensures Counts(NoSfGapHand) == [0, 0, 0, 0, 0, 0, 0, 1, 0, 1, 1, 1, 1]
  {
    var h := NoSfGapHand;
    assert h[..1][..0] == [];
    assert Counts(h[..1]) == [0, 0, 0, 0, 0, 0, 0, 1, 0, 0, 0, 0, 0];
    assert h[..2][..1] == h[..1];
    assert Counts(h[..2]) == [0, 0, 0, 0, 0, 0, 0, 1, 0, 1, 0, 0, 0];
    assert h[..3][..2] == h[..2];
    assert Counts(h[..3]) == [0, 0, 0, 0, 0, 0, 0, 1, 0, 1, 1, 0, 0];
    assert h[..4][..3] == h[..3];
    assert Counts(h[..4]) == [0, 0, 0, 0, 0, 0, 0, 1, 0, 1, 1, 0, 1];
    assert h[..4] == h[..|h| - 1];
  }

  lemma NoSfGapStraightFlush()
    ensures IsFlush(NoSfGapHand) && !IsStraightFlush(NoSfGapHand)
  {
    NoSfGapCounts();
    var daa := Counts(NoSfGapHand);
    StraightIsOnesRun(daa);
    RunBlocked(AceExtended(daa), 4);
    RunBlocked(AceExtended(daa), 9);
  }

  /** A K Q J 10 of hearts. */
  const RoyalHeartsHand: seq<Card> := [Card(Hearts, Ace), Card(Hearts, King), Card(Hearts, Queen), Card(Hearts, Jack), Card(Hearts, Pip(10))]

  /** A K K J 10 of hearts: a flush missing the queen. */
  const NotRoyalHand: seq<Card> := [Card(Hearts, Ace), Card(Hearts, King), Card(Hearts, King), Card(Hearts, Jack), Card(Hearts, Pip(10))]

  /** The royal check accepts the royal hearts and rejects the hand without a queen. */
  lemma RoyalHeartsCheck()
    ensures IsRoyalFlush(RoyalHeartsHand)
    ensures IsFlush(NotRoyalHand) && !IsRoyalFlush(NotRoyalHand)
  {
    var h := RoyalHeartsHand;
    assert ValueSet(h) == RoyalFlushVals by {
      assert h[0].val in ValueSet(h) && h[1].val in ValueSet(h) && h[2].val in ValueSet(h);
      assert h[3].val in ValueSet(h) && h[4].val in ValueSet(h);
    }
    assert Queen !in ValueSet(NotRoyalHand);
  }

  /** 10 J Q K A of spades: the royal values listed low to high. */
  const RoyalSpadesAscending: seq<Card> := [Card(Spades, Pip(10)), Card(Spades, Jack), Card(Spades, Queen), Card(Spades, King), Card(Spades, Ace)]

  /** Royal flushes in different suits, with their cards in opposite orders, rank equal. */
  lemma RoyalFlushesTie()
    ensures Ties(RoyalHeartsHand, RoyalSpadesAscending)
  {
    var h, g := RoyalHeartsHand, RoyalSpadesAscending;
    assert ValuesOf(h) == [Ace, King, Queen, Jack, Pip(10)];
    assert ValuesOf(g) == [Pip(10), Jack, Queen, King, Ace];
    assert IsFlush(h) && IsFlush(g);
    SameValuesTie(h, g);
  }
}
