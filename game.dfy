/** Players, the pot and the list of players still in the hand. Every
    payment moves money between one player's balance and the pot. */
module Game {
  import opened Cards
  import opened Decks

  /** `s` without its first occurrence of `x` (Python's list.remove on a
      list that holds `x`; players compare by identity). */
  function RemoveFirst<T(==)>(s: seq<T>, x: T): (r: seq<T>)
    ensures x in s ==> |r| == |s| - 1
    ensures x !in s ==> r == s
  {
    if s == [] then []
    else
      assert s == [s[0]] + s[1..];
      if s[0] == x then s[1..] else [s[0]] + RemoveFirst(s[1..], x)
  }

  /** Removal takes out one copy of `x` and leaves the other entries. */
  lemma {:induction false} RemoveFirstMultiset<T>(s: seq<T>, x: T)
    ensures multiset(RemoveFirst(s, x)) == multiset(s) - multiset{x}
  {
    if s != [] {
      assert s == [s[0]] + s[1..];
      if s[0] != x {
        RemoveFirstMultiset(s[1..], x);
      }
    }
  }

  /** Entries before the first occurrence are kept as they are. */
  lemma {:induction false} RemoveFirstSkips<T>(a: seq<T>, b: seq<T>, x: T)
    requires x !in a
    ensures RemoveFirst(a + b, x) == a + RemoveFirst(b, x)
  {
    if a != [] {
      var ab := a + b;
      RemoveFirstSkips(a[1..], b, x);
      assert ab[0] == a[0] != x;
      assert ab[1..] == a[1..] + b;
      assert RemoveFirst(ab, x) == [a[0]] + RemoveFirst(a[1..] + b, x);
      assert a == [a[0]] + a[1..];
    } else {
      assert a + b == b;
    }
  }

  /** Removing at the first occurrence cuts the list there. */
  lemma RemoveFirstAt<T>(s: seq<T>, x: T, i: nat)
    requires i < |s| && s[i] == x
    requires forall j :: 0 <= j < i ==> s[j] != x
    ensures RemoveFirst(s, x) == s[..i] + s[i + 1..]
  {
    var rest := s[i..];
    assert s == s[..i] + rest;
    assert rest[0] == x && rest[1..] == s[i + 1..];
    RemoveFirstSkips(s[..i], rest, x);
  }

  /** In a list without repeats, removal takes out exactly `x` and keeps
      every other entry in its order. */
  lemma {:induction false} RemoveFirstDistinct<T>(s: seq<T>, x: T)
    requires forall i, j :: 0 <= i < j < |s| ==> s[i] != s[j]
    ensures x !in RemoveFirst(s, x)
    ensures forall y :: y != x ==> (y in RemoveFirst(s, x) <==> y in s)
  {
    if s != [] {
      var t := s[1..];
      assert s == [s[0]] + t;
      if s[0] != x {
        RemoveFirstDistinct(t, x);
        assert RemoveFirst(s, x) == [s[0]] + RemoveFirst(t, x);
      } else {
        assert x !in t;
      }
    }
  }

  class PokerGame {
    var players: seq<Player>
    var deck: Deck
    var turn: int
    var pot: int
    var activePlayers: seq<Player>

    /** A game of more than two players, a deck shuffled by `order`, turn
        zero, an empty pot and every player active. */
    constructor (players: seq<Player>, order: seq<nat>)
      requires |players| > 2
      requires IsPermutation(order, DeckSize)
      ensures this.players == players && activePlayers == players
      ensures turn == 0 && pot == 0
      ensures fresh(deck) && deck.deck == Permute(FullDeck(), order)
      ensures multiset(deck.deck) == multiset(FullDeck())
    {
      this.players := players;
      var d := new Deck();
      d.Shuffle(order);
      deck := d;
      turn := 0;
      pot := 0;
      activePlayers := players[..];
    }

    method AddToPot(amount: int)
      modifies this`pot
      ensures pot == old(pot) + amount
    {
      pot := pot + amount;
    }

    /** Takes `amount` out of the pot; fails, leaving it as it was, when the
        pot holds less. */
    method RemoveFromPot(amount: int) returns (ok: bool)
      modifies this`pot
      ensures ok <==> amount <= old(pot)
      ensures pot == if ok then old(pot) - amount else old(pot)
      ensures ok && amount >= 0 ==> 0 <= pot <= old(pot)
    {
      if amount > pot {
        return false;
      }
      pot := pot - amount;
      ok := true;
    }

    /** A copy of the active-player list, built entry by entry. */
    method GetActivePlayers() returns (active: seq<Player>)
      ensures active == activePlayers
    {
      active := [];
      for i := 0 to |activePlayers|
        invariant active == activePlayers[..i]
      {
        active := active + [activePlayers[i]];
      }
    }

    /** Removes the first occurrence of `player` from the active list; fails,
        leaving the list as it was, when the player is not in it. */
    method DeactivePlayer(player: Player) returns (ok: bool)
      modifies this`activePlayers
      ensures ok <==> player in old(activePlayers)
      ensures activePlayers == RemoveFirst(old(activePlayers), player)
    {
      var i := 0;
      while i < |activePlayers| && activePlayers[i] != player
        invariant 0 <= i <= |activePlayers|
        invariant forall j :: 0 <= j < i ==> activePlayers[j] != player
      {
        i := i + 1;
      }
      if i == |activePlayers| {
        return false;
      }
      RemoveFirstAt(activePlayers, player, i);
      activePlayers := activePlayers[..i] + activePlayers[i + 1..];
      ok := true;
    }
  }

  class Player {
    var bal: int

    constructor (bal: int)
      ensures this.bal == bal
    {
      this.bal := bal;
    }

    /** Moves `amount` from the balance into the pot; fails, moving nothing,
        when the balance is smaller. */
    method Pay(amount: int, game: PokerGame) returns (ok: bool)
      modifies this, game`pot
      ensures ok <==> amount <= old(bal)
      ensures bal == if ok then old(bal) - amount else old(bal)
      ensures game.pot == if ok then old(game.pot) + amount else old(game.pot)
      ensures bal + game.pot == old(bal) + old(game.pot)
      ensures ok ==> bal >= 0
      ensures ok && amount >= 0 && old(game.pot) >= 0 ==> game.pot >= 0
    {
      if amount > bal {
        return false;
      }
      bal := bal - amount;
      game.AddToPot(amount);
      ok := true;
    }

    /** Moves `amount` from the pot into the balance; fails, moving nothing,
        when the pot is smaller. */
    method Receive(amount: int, game: PokerGame) returns (ok: bool)
      modifies this, game`pot
      ensures ok <==> amount <= old(game.pot)
      ensures bal == if ok then old(bal) + amount else old(bal)
      ensures game.pot == if ok then old(game.pot) - amount else old(game.pot)
      ensures bal + game.pot == old(bal) + old(game.pot)
      ensures ok ==> game.pot >= 0
      ensures ok && amount >= 0 && old(bal) >= 0 ==> bal >= 0
    {
      ok := game.RemoveFromPot(amount);
      if !ok {
        return;
      }
      bal := bal + amount;
    }
  }
}
