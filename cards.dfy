/** Playing cards: the four suits, the thirteen values and the numeric
    rank mapping (2..10 as themselves, J = 11, Q = 12, K = 13, A = 14). */
module Cards {

  datatype Suit = Hearts | Diamonds | Spades | Clubs

  /** The number printed on a pip card. */
  type PipNumber = n: int | 2 <= n <= 10 witness 2

  /** A card value: a pip card 2..10 or a face card / ace. */
  datatype Value = Pip(n: PipNumber) | Jack | Queen | King | Ace

  datatype Card = Card(suit: Suit, val: Value)

  /** Number of slots in the rank-count array, one per value. */
  const NumValues: nat := 13

  /** The numeric rank of a value (the value mapping of the source). */
  function Rank(v: Value): (r: int)
    ensures 2 <= r <= 14
    ensures v.Pip? <==> r <= 10
    ensures v.Pip? ==> r == v.n
  {
    match v
    case Pip(n) => n
    case Jack => 11
    case Queen => 12
    case King => 13
    case Ace => 14
  }

  /** The rank-count array slot of a value: its rank minus 2, so Ace is slot 12. */
  function Slot(v: Value): (i: nat)
    ensures i < NumValues
    ensures v == Ace <==> i == 12
  {
    Rank(v) - 2
  }

  /** Distinct values occupy distinct slots. */
  lemma SlotInjective(v: Value, w: Value)
    ensures Slot(v) == Slot(w) <==> v == w
  {
  }

  /** Card equality compares suit and value and nothing else. */
  function SameCard(a: Card, b: Card): (r: bool)
    ensures r <==> a == b
  {
    a.suit == b.suit && a.val == b.val
  }

  /** Suits in construction order. */
  const Suits: seq<Suit> := [Hearts, Diamonds, Spades, Clubs]

  /** Values in construction order: value number k sits in slot k. */
  const Values: seq<Value> :=
    [Pip(2), Pip(3), Pip(4), Pip(5), Pip(6), Pip(7), Pip(8), Pip(9), Pip(10),
     Jack, Queen, King, Ace]

  /** The value list is ordered by slot and holds every value once. */
  lemma ValuesBySlot()
    ensures |Values| == NumValues
    ensures forall k :: 0 <= k < |Values| ==> Slot(Values[k]) == k
    ensures forall v: Value :: v in Values
  {
    forall v: Value ensures v in Values {
      if v.Pip? {
        assert Values[v.n - 2] == v;
      }
    }
  }
}
