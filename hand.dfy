/** The hand object: the cards held and the rank-count array that the
    constructor and `AddCard` keep up to date in place. */
module Hands {
  import opened Cards
  import opened Ranking
  import opened Straights
  import opened TieBreak
  import opened Compare

  class Hand {
    var cards: seq<Card>
    /** Rank-count array: slot i counts the cards whose value has slot i. */
    var daa: array<nat>

    ghost predicate Valid()
      reads this, daa
    {
      daa.Length == NumValues && daa[..] == Counts(cards)
    }

    /** Builds the rank-count array by counting the given cards one by one. */
    constructor (cards: seq<Card>)
      ensures Valid() && this.cards == cards && fresh(daa)
    {
      var counts := new nat[NumValues](_ => 0);
      assert counts[..] == Counts(cards[..0]);
      for k := 0 to |cards|
        invariant counts[..] == Counts(cards[..k])
      {
        var i := Slot(cards[k].val);
        CountsAppend(cards[..k], cards[k]);
        assert cards[..k + 1] == cards[..k] + [cards[k]];
        counts[i] := counts[i] + 1;
      }
      assert cards[..|cards|] == cards;
      this.cards := cards;
      daa := counts;
    }

    /** Appends a card and increments exactly the slot of its value. */
    method AddCard(card: Card)
      requires Valid()
      modifies this, daa
      ensures Valid() && daa == old(daa)
      ensures cards == old(cards) + [card]
      ensures daa[..] == old(daa[..])[Slot(card.val) := old(daa[Slot(card.val)]) + 1]
    {
      CountsAppend(cards, card);
      cards := cards + [card];
      var i := Slot(card.val);
      daa[i] := daa[i] + 1;
    }

    /** Compares every card's suit with the first card's suit; an empty hand
        has no first card. */
    method CheckFlush() returns (b: bool)
      requires |cards| > 0
      ensures b == IsFlush(cards)
    {
      var firstSuit := cards[0].suit;
      for k := 0 to |cards|
        invariant forall j :: 0 <= j < k ==> cards[j].suit == firstSuit
      {
        if cards[k].suit != firstSuit {
          return false;
        }
      }
      return true;
    }

    /** Runs the check of one category against the rank-count array. */
    method Check(cat: Category) returns (b: bool)
      requires Valid()
      requires cat == Flush ==> |cards| > 0
      ensures b == Holds(cat, cards)
    {
      var counts := daa[..];
      match cat
      case RoyalFlush =>
        if ValueSet(cards) == RoyalFlushVals {
          assert Ace in ValueSet(cards);
          b := CheckFlush();
        } else {
          b := false;
        }
      case StraightFlush =>
        if IsStraight(counts) {
          StraightNeedsCards(cards);
          b := CheckFlush();
        } else {
          b := false;
        }
      case FourOfAKind => b := IsFourOfAKind(counts);
      case FullHouse => b := IsFullHouse(counts);
      case Flush => b := CheckFlush();
      case Straight => b := IsStraight(counts);
      case ThreeOfAKind => b := IsThreeOfAKind(counts);
      case TwoPair => b := IsTwoPair(counts);
      case OnePair => b := IsOnePair(counts);
      case HighCard => b := true;
    }

    /** Tries the categories from strongest to weakest and returns the first that holds. */
    method GetBestHand() returns (best: Category)
      requires Valid() && |cards| == CardsInAHand
      ensures best == Classify(cards)
    {
      for k := 0 to |HandRankings|
        invariant k <= RankingIndex(Classify(cards))
      {
        var isHand := Check(HandRankings[k]);
        if isHand {
          return HandRankings[k];
        }
      }
      assert false;
    }

    /** Collects the (count, slot) pairs of the occupied slots, sorts them in
        descending order and writes each slot out `count` times. */
    method GetSorted() returns (score: seq<nat>)
      requires Valid() && |cards| == CardsInAHand
      ensures score == Key(cards)
    {
      var sortingArr: seq<Pair> := [];
      for i := 0 to daa.Length
        invariant sortingArr == Pairs(daa[..i])
      {
        PairsStep(daa[..], i);
        var count := daa[i];
        if count > 0 {
          sortingArr := sortingArr + [(count, i)];
        }
      }
      assert daa[..daa.Length] == daa[..];
      sortingArr := SortDesc(sortingArr);
      score := [];
      for j := 0 to |sortingArr|
        invariant score == Expand(sortingArr[..j])
      {
        ExpandStep(sortingArr, j);
        var (cnt, num) := sortingArr[j];
        score := score + Repeat(num, cnt);
      }
      assert sortingArr[..|sortingArr|] == sortingArr;
    }

    /** Equal rank: same category and same key. */
    method Equals(other: Hand) returns (eq: bool)
      requires Valid() && |cards| == CardsInAHand
      requires other.Valid() && |other.cards| == CardsInAHand
      ensures eq == Ties(cards, other.cards)
    {
      var best := GetBestHand();
      var score := GetSorted();
      var otherBest := other.GetBestHand();
      var otherScore := other.GetSorted();
      eq := best == otherBest && score == otherScore;
    }

    /** Strictly better: a stronger category, or the same one and a greater key. */
    method Greater(other: Hand) returns (gt: bool)
      requires Valid() && |cards| == CardsInAHand
      requires other.Valid() && |other.cards| == CardsInAHand
      ensures gt == Beats(cards, other.cards)
    {
      var handType := GetBestHand();
      var score := GetSorted();
      var otherType := other.GetBestHand();
      var otherScore := other.GetSorted();
      var i := RankingIndex(handType);
      var otherI := RankingIndex(otherType);
      if i == otherI {
        gt := LexGreater(score, otherScore);
      } else {
        gt := i < otherI;
      }
    }

    /** Strictly worse, derived from `Greater` and `Equals`: it holds exactly
        when the other hand is strictly better. */
    method Less(other: Hand) returns (lt: bool)
      requires Valid() && |cards| == CardsInAHand
      requires other.Valid() && |other.cards| == CardsInAHand
      ensures lt == Beats(other.cards, cards)
    {
      var gt := Greater(other);
      var eq := Equals(other);
      CompareTrichotomy(cards, other.cards);
      lt := !gt && !eq;
    }
  }
}
