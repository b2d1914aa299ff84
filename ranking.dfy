/** Hand classification: the rank-count array, the ten category checks
    and the first-match choice of the best category. */
module Ranking {
  import opened Cards

  /** Number of cards in a complete hand. */
  const CardsInAHand: nat := 5

  // ---------------------------------------------------------------------
  // Rank-count array
  // ---------------------------------------------------------------------

  /** How many of `cards` have a value in slot `i`. */
  function Occurrences(cards: seq<Card>, i: int): (n: nat)
    ensures n <= |cards|
  {
    if cards == [] then 0
    else Occurrences(cards[..|cards| - 1], i) + (if Slot(cards[|cards| - 1].val) == i then 1 else 0)
  }

  const Zeros: seq<nat> := [0, 0, 0, 0, 0, 0, 0, 0, 0, 0, 0, 0, 0]

  /** The rank-count array of a hand: thirteen zeros, and each card adds one
      to the slot of its value. */
  function Counts(cards: seq<Card>): (daa: seq<nat>)
    ensures |daa| == NumValues
    ensures forall j :: 0 <= j < NumValues ==> daa[j] <= |cards|
  {
    if cards == [] then Zeros
    else
      var daa := Counts(cards[..|cards| - 1]);
      var i := Slot(cards[|cards| - 1].val);
      daa[i := daa[i] + 1]
  }

  function Sum(s: seq<nat>): nat
  {
    if s == [] then 0 else Sum(s[..|s| - 1]) + s[|s| - 1]
  }

  lemma {:induction false} SumAllZero(s: seq<nat>)
    requires forall j :: 0 <= j < |s| ==> s[j] == 0
    ensures Sum(s) == 0
  {
    if s != [] {
      SumAllZero(s[..|s| - 1]);
    }
  }

  /** Adding a card increments exactly the slot of its value. */
  lemma CountsAppend(cards: seq<Card>, c: Card)
    ensures Counts(cards + [c]) == Counts(cards)[Slot(c.val) := Counts(cards)[Slot(c.val)] + 1]
  {
    assert (cards + [c])[..|cards|] == cards;
  }

  /** Slot i of the rank-count array holds the number of cards whose value is in slot i. */
  lemma {:induction false} CountsOccurrences(cards: seq<Card>, i: nat)
    requires i < NumValues
    ensures Counts(cards)[i] == Occurrences(cards, i)
  {
    if cards != [] {
      CountsOccurrences(cards[..|cards| - 1], i);
    }
  }

  /** A slot is occupied exactly when some card has a value in it. */
  lemma {:induction false} OccurrencesPositive(cards: seq<Card>, i: int)
    ensures Occurrences(cards, i) >= 1 <==> exists c :: c in cards && Slot(c.val) == i
  {
    if cards != [] {
      var init := cards[..|cards| - 1];
      OccurrencesPositive(init, i);
      assert cards == init + [cards[|cards| - 1]];
    }
  }

  /** Incrementing one entry increments the sum. */
  lemma {:induction false} SumIncrement(s: seq<nat>, i: nat)
    requires i < |s|
    ensures Sum(s[i := s[i] + 1]) == Sum(s) + 1
  {
    var t := s[i := s[i] + 1];
    if i < |s| - 1 {
      SumIncrement(s[..|s| - 1], i);
      assert t[..|t| - 1] == s[..|s| - 1][i := s[i] + 1];
    } else {
      assert t[..|t| - 1] == s[..|s| - 1];
    }
  }

  /** The rank-count array sums to the number of cards held. */
  lemma {:induction false} CountsSum(cards: seq<Card>)
    ensures Sum(Counts(cards)) == |cards|
  {
    if cards == [] {
      SumAllZero(Zeros);
    } else {
      var init, c := cards[..|cards| - 1], cards[|cards| - 1];
      assert cards == init + [c];
      CountsSum(init);
      CountsAppend(init, c);
      SumIncrement(Counts(init), Slot(c.val));
    }
  }

  // ---------------------------------------------------------------------
  // Count-based checks
  // ---------------------------------------------------------------------

  /** The largest entry of a non-empty list (Python's max). */
  function Max(s: seq<nat>): (m: nat)
    requires |s| > 0
    ensures m in s
    ensures forall j :: 0 <= j < |s| ==> s[j] <= m
  {
    if |s| == 1 then s[0]
    else
      var rest := Max(s[..|s| - 1]);
      if s[|s| - 1] > rest then s[|s| - 1] else rest
  }

  /** Number of entries of `s` equal to `v` (Python's list.count). */
  function CountOf(s: seq<nat>, v: nat): nat
  {
    multiset(s)[v]
  }

  predicate IsFourOfAKind(daa: seq<nat>)
    requires |daa| == NumValues
  {
    Max(daa) == 4
  }

  predicate IsFullHouse(daa: seq<nat>)
  {
    CountOf(daa, 3) == 1 && CountOf(daa, 2) == 1
  }

  predicate IsThreeOfAKind(daa: seq<nat>)
    requires |daa| == NumValues
  {
    Max(daa) == 3
  }

  predicate IsTwoPair(daa: seq<nat>)
    requires |daa| == NumValues
  {
    Max(daa) == 2 && CountOf(daa, 2) == 2
  }

  predicate IsOnePair(daa: seq<nat>)
    requires |daa| == NumValues
  {
    Max(daa) == 2 && CountOf(daa, 2) == 1
  }

  // ---------------------------------------------------------------------
  // Suit- and value-based checks
  // ---------------------------------------------------------------------

  /** Every card has the suit of the first card (vacuous on an empty hand). */
  predicate IsFlush(cards: seq<Card>)
  {
    forall i :: 0 <= i < |cards| ==> cards[i].suit == cards[0].suit
  }

  /** The set of values present in a hand. */
  function ValueSet(cards: seq<Card>): set<Value>
  {
    set c | c in cards :: c.val
  }

  /** The values of the cards, in hand order. */
  function ValuesOf(cards: seq<Card>): seq<Value>
  {
    seq(|cards|, k requires 0 <= k < |cards| => cards[k].val)
  }

  const RoyalFlushVals: set<Value> := {Ace, King, Queen, Jack, Pip(10)}

  predicate IsRoyalFlush(cards: seq<Card>)
  {
    ValueSet(cards) == RoyalFlushVals && IsFlush(cards)
  }

  // ---------------------------------------------------------------------
  // Straight detection: the counts are written out as decimal numerals,
  // the Ace slot is repeated in front, and the text is searched for "11111".
  // ---------------------------------------------------------------------

  function DigitChar(d: nat): char
    requires d < 10
  {
    ('0' as int + d) as char
  }

  /** The decimal numeral of a natural number (Python's str on an int). */
  function Decimal(n: nat): (s: string)
    ensures |s| >= 1
    decreases n
  {
    if n < 10 then [DigitChar(n)] else Decimal(n / 10) + [DigitChar(n % 10)]
  }

  /** The numerals of all entries, concatenated. */
  function JoinDecimal(counts: seq<nat>): string
  {
    if counts == [] then "" else JoinDecimal(counts[..|counts| - 1]) + Decimal(counts[|counts| - 1])
  }

  /** Python's substring test `pat in s`. */
  predicate Contains(s: string, pat: string)
    decreases |s|
  {
    if |s| < |pat| then false else s[..|pat|] == pat || Contains(s[1..], pat)
  }

  const FiveOnes: string := "11111"

  predicate IsStraight(daa: seq<nat>)
    requires |daa| == NumValues
  {
    Contains(Decimal(daa[12]) + JoinDecimal(daa), FiveOnes)
  }

  predicate IsStraightFlush(cards: seq<Card>)
  {
    IsStraight(Counts(cards)) && IsFlush(cards)
  }

  // ---------------------------------------------------------------------
  // Categories and first-match classification
  // ---------------------------------------------------------------------

  datatype Category =
    | RoyalFlush | StraightFlush | FourOfAKind | FullHouse | Flush
    | Straight | ThreeOfAKind | TwoPair | OnePair | HighCard

  /** Categories from strongest to weakest. */
  const HandRankings: seq<Category> :=
    [RoyalFlush, StraightFlush, FourOfAKind, FullHouse, Flush,
     Straight, ThreeOfAKind, TwoPair, OnePair, HighCard]

  /** Position of a category in the ranking list (Python's list.index). */
  function RankingIndex(c: Category): (i: nat)
    ensures i < |HandRankings| && HandRankings[i] == c
    ensures forall j :: 0 <= j < i ==> HandRankings[j] != c
  {
    match c
    case RoyalFlush => 0
    case StraightFlush => 1
    case FourOfAKind => 2
    case FullHouse => 3
    case Flush => 4
    case Straight => 5
    case ThreeOfAKind => 6
    case TwoPair => 7
    case OnePair => 8
    case HighCard => 9
  }

  /** The check that belongs to each category. */
  predicate Holds(cat: Category, cards: seq<Card>)
  {
    HoldsOn(cat, cards, Counts(cards))
  }

  /** The check of each category, given the hand and its rank-count array. */
  predicate HoldsOn(cat: Category, cards: seq<Card>, daa: seq<nat>)
    requires |daa| == NumValues
  {
    match cat
    case RoyalFlush => IsRoyalFlush(cards)
    case StraightFlush => IsStraightFlush(cards)
    case FourOfAKind => IsFourOfAKind(daa)
    case FullHouse => IsFullHouse(daa)
    case Flush => IsFlush(cards)
    case Straight => IsStraight(daa)
    case ThreeOfAKind => IsThreeOfAKind(daa)
    case TwoPair => IsTwoPair(daa)
    case OnePair => IsOnePair(daa)
    case HighCard => true
  }

  /** The outcome of every category's check, in ranking order. */
  function Flags(cards: seq<Card>): seq<bool>
  {
    seq(|HandRankings|, j requires 0 <= j < |HandRankings| => Holds(HandRankings[j], cards))
  }

  /** Position of the first true flag from position `k` on; the last flag
      is true, so the search always succeeds. */
  function FirstTrue(flags: seq<bool>, k: nat): (i: nat)
    requires k < |flags| && flags[|flags| - 1]
    ensures k <= i < |flags| && flags[i]
    ensures forall j :: k <= j < i ==> !flags[j]
    decreases |flags| - k
  {
    if flags[k] then k else FirstTrue(flags, k + 1)
  }

  /** The best category of a complete hand. */
  function Classify(cards: seq<Card>): (c: Category)
    requires |cards| == CardsInAHand
    ensures Holds(c, cards)
    ensures forall d :: Holds(d, cards) ==> RankingIndex(c) <= RankingIndex(d)
  {
    var flags := Flags(cards);
    assert forall d :: flags[RankingIndex(d)] == Holds(d, cards);
    HandRankings[FirstTrue(flags, 0)]
  }

  /** The best category is exactly the first category in ranking order whose check holds. */
  lemma ClassifyIs(cards: seq<Card>, cat: Category)
    requires |cards| == CardsInAHand
    ensures Classify(cards) == cat <==>
      Holds(cat, cards) && forall d :: RankingIndex(d) < RankingIndex(cat) ==> !Holds(d, cards)
  {
    var c := Classify(cards);
    if Holds(cat, cards) && forall d :: RankingIndex(d) < RankingIndex(cat) ==> !Holds(d, cards) {
      assert RankingIndex(c) == RankingIndex(cat);
      assert c == HandRankings[RankingIndex(c)] == cat;
    }
  }
}
