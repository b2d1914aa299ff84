/** The deck: fifty-two cards built suit by suit, reordered by an index
    permutation, and dealt from the end of the list. */
module Decks {
  import opened Cards

  datatype Option<T> = None | Some(value: T)

  /** Number of cards in a full deck. */
  const DeckSize: nat := 52

  /** The full deck in construction order: suit-major, values in slot order. */
  function FullDeck(): (d: seq<Card>)
    ensures |d| == DeckSize
  {
    seq(DeckSize, k requires 0 <= k < DeckSize => Card(Suits[k / NumValues], Values[k % NumValues]))
  }

  /** Position of a suit in the construction order. */
  function SuitIndex(s: Suit): (i: nat)
    ensures i < |Suits| && Suits[i] == s
  {
    match s
    case Hearts => 0
    case Diamonds => 1
    case Spades => 2
    case Clubs => 3
  }

  /** Suit number si and value number vi sit at position 13 * si + vi. */
  lemma DeckPosition(si: nat, vi: nat)
    requires si < |Suits| && vi < NumValues
    ensures si * NumValues + vi < DeckSize
    ensures FullDeck()[si * NumValues + vi] == Card(Suits[si], Values[vi])
  {
    var k := si * NumValues + vi;
    assert k / NumValues == si && k % NumValues == vi;
  }

  /** Building the deck up to position 13 * si + vi appends that card next. */
  lemma FullDeckStep(si: nat, vi: nat)
    requires si < |Suits| && vi < NumValues
    ensures si * NumValues + vi < DeckSize
    ensures FullDeck()[..si * NumValues + vi + 1] == FullDeck()[..si * NumValues + vi] + [Card(Suits[si], Values[vi])]
  {
    DeckPosition(si, vi);
    var k := si * NumValues + vi;
    assert FullDeck()[..k + 1] == FullDeck()[..k] + [FullDeck()[k]];
  }

  /** The full deck holds every card, each exactly once. */
  lemma FullDeckFacts()
    ensures |FullDeck()| == DeckSize
    ensures forall i, j :: 0 <= i < j < DeckSize ==> FullDeck()[i] != FullDeck()[j]
    ensures forall c: Card :: c in FullDeck()
  {
    var d := FullDeck();
    ValuesBySlot();
    forall i, j | 0 <= i < j < DeckSize ensures d[i] != d[j] {
      var si, sj, vi, vj := i / NumValues, j / NumValues, i % NumValues, j % NumValues;
      assert i == si * NumValues + vi && j == sj * NumValues + vj;
      if si != sj {
        assert SuitIndex(d[i].suit) == si && SuitIndex(d[j].suit) == sj;
      } else {
        assert Slot(d[i].val) == vi && Slot(d[j].val) == vj;
      }
    }
    forall c: Card ensures c in d {
      DeckPosition(SuitIndex(c.suit), Slot(c.val));
      assert d[SuitIndex(c.suit) * NumValues + Slot(c.val)] == c;
    }
  }

  /** The indices 0, 1, ..., n - 1. */
  function Range(n: nat): (r: seq<nat>)
    ensures |r| == n && forall i :: 0 <= i < n ==> r[i] == i
  {
    if n == 0 then [] else Range(n - 1) + [n - 1]
  }

  /** `order` lists each index below n exactly once (what sampling all of
      range(n) without replacement yields). */
  predicate IsPermutation(order: seq<nat>, n: nat)
  {
    IndicesBelow(order, n) && multiset(order) == multiset(Range(n))
  }

  /** A permutation of n indices has n entries. */
  lemma PermutationLength(order: seq<nat>, n: nat)
    requires IsPermutation(order, n)
    ensures |order| == n
  {
    assert |order| == |multiset(order)| == |multiset(Range(n))| == n;
  }

  /** The list whose k-th card is the card at position order[k]. */
  function Permute(d: seq<Card>, order: seq<nat>): (r: seq<Card>)
    requires IndicesBelow(order, |d|)
    ensures |r| == |order|
  {
    seq(|order|, k requires 0 <= k < |order| => d[order[k]])
  }

  /** Every index in `order` is a position of a list of length n. */
  predicate IndicesBelow(order: seq<nat>, n: nat)
  {
    forall k :: 0 <= k < |order| ==> order[k] < n
  }

  /** Reordering by a concatenation of index lists concatenates the results. */
  lemma PermuteConcat(d: seq<Card>, a: seq<nat>, b: seq<nat>)
    requires IndicesBelow(a, |d|) && IndicesBelow(b, |d|)
    ensures IndicesBelow(a + b, |d|)
    ensures Permute(d, a + b) == Permute(d, a) + Permute(d, b)
  {
  }

  /** The list without its entry at position p. */
  function Without(o: seq<nat>, p: nat): (r: seq<nat>)
    requires p < |o|
    ensures |r| == |o| - 1
  {
    o[..p] + o[p + 1..]
  }

  /** Taking one index out of each of two lists with the same indices
      leaves lists with the same indices. */
  lemma MultisetWithout(o: seq<nat>, o': seq<nat>, p: nat)
    requires |o| > 0 && p < |o'| && o'[p] == o[0]
    requires multiset(o) == multiset(o')
    ensures multiset(o[1..]) == multiset(Without(o', p))
  {
    var x, rest, front, back := o[0], o[1..], o'[..p], o'[p + 1..];
    assert o == [x] + rest;
    assert o' == front + [x] + back;
    assert multiset(o') == multiset(front) + multiset{x} + multiset(back);
    assert Without(o', p) == front + back;
    assert multiset(front + back) == multiset(front) + multiset(back);
    var a, b := multiset(rest), multiset(front + back);
    assert multiset{x} + a == multiset{x} + b;
    forall y ensures a[y] == b[y] {
      assert (multiset{x} + a)[y] == (multiset{x} + b)[y];
    }
  }

  /** Selecting the index at position p adds that card to the rest. */
  lemma PermuteWithout(d: seq<Card>, o': seq<nat>, p: nat)
    requires IndicesBelow(o', |d|) && p < |o'|
    ensures IndicesBelow(Without(o', p), |d|)
    ensures multiset(Permute(d, o')) == multiset(Permute(d, Without(o', p))) + multiset{d[o'[p]]}
  {
    var front, x, back := o'[..p], o'[p], o'[p + 1..];
    assert o' == front + [x] + back;
    PermuteConcat(d, front, [x]);
    PermuteConcat(d, front + [x], back);
    PermuteConcat(d, front, back);
  }

  /** Two index lists holding the same indices, in any order, select the
      same cards. */
  lemma {:induction false} PermuteSameIndices(d: seq<Card>, o: seq<nat>, o': seq<nat>)
    requires IndicesBelow(o, |d|) && IndicesBelow(o', |d|)
    requires multiset(o) == multiset(o')
    ensures multiset(Permute(d, o)) == multiset(Permute(d, o'))
    decreases |o|
  {
    if o == [] {
      assert |o'| == |multiset(o')| == 0;
    } else {
      assert o[0] in multiset(o');
      var p :| 0 <= p < |o'| && o'[p] == o[0];
      MultisetWithout(o, o', p);
      PermuteWithout(d, o', p);
      PermuteSameIndices(d, o[1..], Without(o', p));
      assert Permute(d, o) == [d[o[0]]] + Permute(d, o[1..]);
    }
  }

  /** Reordering by 0, 1, ..., |d| - 1 changes nothing. */
  lemma PermuteRange(d: seq<Card>)
    ensures IndicesBelow(Range(|d|), |d|)
    ensures Permute(d, Range(|d|)) == d
  {
  }

  /** Reordering by a permutation keeps exactly the same cards. */
  lemma PermutePreservesCards(d: seq<Card>, order: seq<nat>)
    requires IsPermutation(order, |d|)
    ensures |Permute(d, order)| == |d|
    ensures multiset(Permute(d, order)) == multiset(d)
  {
    PermutationLength(order, |d|);
    PermuteRange(d);
    PermuteSameIndices(d, order, Range(|d|));
  }

  /** The n cards dealt from the end of `d`, last card first. */
  function Popped(d: seq<Card>, n: nat): (r: seq<Card>)
    requires n <= |d|
    ensures |r| == n
  {
    seq(n, i requires 0 <= i < n => d[|d| - 1 - i])
  }

  /** Dealing moves cards and neither creates nor loses any: the dealt cards
      and what is left make up the old deck. */
  lemma {:induction false} PoppedConserves(d: seq<Card>, n: nat)
    requires n <= |d|
    ensures multiset(Popped(d, n)) + multiset(d[..|d| - n]) == multiset(d)
  {
    if n > 0 {
      var m := |d| - n;
      PoppedConserves(d, n - 1);
      assert Popped(d, n) == Popped(d, n - 1) + [d[m]];
      assert d[..m + 1] == d[..m] + [d[m]];
    } else {
      assert d[..|d|] == d;
    }
  }

  class Deck {
    var deck: seq<Card>

    /** Fills the deck suit by suit, each suit with its values in order. */
    constructor ()
      ensures deck == FullDeck()
    {
      deck := [];
      new;
      for si := 0 to |Suits|
        invariant deck == FullDeck()[..si * NumValues]
      {
        for vi := 0 to |Values|
          invariant deck == FullDeck()[..si * NumValues + vi]
        {
          FullDeckStep(si, vi);
          deck := deck + [Card(Suits[si], Values[vi])];
        }
      }
    }

    /** Rebuilds the deck taking the card at each position of `order` in turn. */
    method Shuffle(order: seq<nat>)
      requires IsPermutation(order, |deck|)
      modifies this
      ensures deck == Permute(old(deck), order)
      ensures multiset(deck) == multiset(old(deck))
    {
      PermutePreservesCards(deck, order);
      var newDeck: seq<Card> := [];
      for i := 0 to |order|
        invariant newDeck == Permute(deck, order)[..i]
      {
        newDeck := newDeck + [deck[order[i]]];
      }
      deck := newDeck;
    }

    /** Deals `numCards` cards from the end of the list, one at a time;
        fails, leaving the deck as it was, when fewer remain. A negative
        count deals nothing. */
    method Draw(numCards: int) returns (r: Option<seq<Card>>)
      modifies this
      ensures r.None? <==> numCards > |old(deck)|
      ensures r.None? ==> deck == old(deck)
      ensures r.Some? ==> var n := if numCards < 0 then 0 else numCards;
        r.value == Popped(old(deck), n) && deck == old(deck)[..|old(deck)| - n]
      ensures r.Some? ==> multiset(r.value) + multiset(deck) == multiset(old(deck))
    {
      if numCards > |deck| {
        return None;
      }
      var n := if numCards < 0 then 0 else numCards;
      var d := deck;
      var cards: seq<Card> := [];
      for i := 0 to n
        invariant cards == Popped(d, i)
        invariant deck == d[..|d| - i]
      {
        cards := cards + [deck[|deck| - 1]];
        deck := deck[..|deck| - 1];
      }
      PoppedConserves(d, n);
      r := Some(cards);
    }

    /** Number of cards left in the deck. */
    method GetNumCards() returns (n: nat)
      ensures n == |deck|
    {
      n := |deck|;
    }
  }
}
