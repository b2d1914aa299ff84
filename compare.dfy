/** Comparing complete hands: category first, then the tie-break key in
    tuple (lexicographic) order. */
module Compare {
  import opened Cards
  import opened Ranking
  import opened TieBreak

  /** Tuple comparison `s > t`: the first differing entry decides, and a
      proper prefix is smaller. */
  predicate LexGreater(s: seq<nat>, t: seq<nat>)
    decreases |s|
  {
    if t == [] then s != []
    else if s == [] then false
    else if s[0] != t[0] then s[0] > t[0]
    else LexGreater(s[1..], t[1..])
  }

  /** Exactly one of `s > t`, `s == t`, `t > s` holds. */
  lemma {:induction false} LexTrichotomy(s: seq<nat>, t: seq<nat>)
    ensures LexGreater(s, t) ==> s != t && !LexGreater(t, s)
    ensures s == t ==> !LexGreater(s, t)
    ensures s != t ==> LexGreater(s, t) || LexGreater(t, s)
    decreases |s|
  {
    if s != [] && t != [] && s[0] == t[0] {
      LexTrichotomy(s[1..], t[1..]);
      if s[1..] == t[1..] {
        assert s == [s[0]] + s[1..] && t == [t[0]] + t[1..];
      }
    }
  }

  lemma {:induction false} LexTransitive(s: seq<nat>, t: seq<nat>, u: seq<nat>)
    requires LexGreater(s, t) && LexGreater(t, u)
    ensures LexGreater(s, u)
    decreases |s|
  {
    if u != [] && s[0] == t[0] == u[0] {
      LexTransitive(s[1..], t[1..], u[1..]);
    }
  }

  /** Hand `h` beats hand `g`: a stronger category, or the same category and a greater key. */
  predicate Beats(h: seq<Card>, g: seq<Card>)
    requires |h| == CardsInAHand && |g| == CardsInAHand
  {
    var i, j := RankingIndex(Classify(h)), RankingIndex(Classify(g));
    if i == j then LexGreater(Key(h), Key(g)) else i < j
  }

  /** The two hands rank equal: same category and same key. */
  predicate Ties(h: seq<Card>, g: seq<Card>)
    requires |h| == CardsInAHand && |g| == CardsInAHand
  {
    Classify(h) == Classify(g) && Key(h) == Key(g)
  }

  /** `h < g` as derived from `>` and `==` by the total-ordering decorator. */
  predicate Loses(h: seq<Card>, g: seq<Card>)
    requires |h| == CardsInAHand && |g| == CardsInAHand
  {
    !Beats(h, g) && !Ties(h, g)
  }

  /** Exactly one of beats, ties and loses holds, and losing to `g` is
      the same as `g` beating `h`. */
  lemma CompareTrichotomy(h: seq<Card>, g: seq<Card>)
    requires |h| == CardsInAHand && |g| == CardsInAHand
    ensures Beats(h, g) ==> !Ties(h, g) && !Beats(g, h)
    ensures Ties(h, g) ==> !Beats(g, h)
    ensures Loses(h, g) <==> Beats(g, h)
  {
    LexTrichotomy(Key(h), Key(g));
    if RankingIndex(Classify(h)) == RankingIndex(Classify(g)) {
      assert Classify(h) == HandRankings[RankingIndex(Classify(h))] == Classify(g);
    }
  }

  lemma BeatsTransitive(h: seq<Card>, g: seq<Card>, k: seq<Card>)
    requires |h| == CardsInAHand && |g| == CardsInAHand && |k| == CardsInAHand
    requires Beats(h, g) && Beats(g, k)
    ensures Beats(h, k)
  {
    var i, j, l := RankingIndex(Classify(h)), RankingIndex(Classify(g)), RankingIndex(Classify(k));
    if i == j == l {
      LexTransitive(Key(h), Key(g), Key(k));
    }
  }

  /** Hands holding the same values, in any order and any suits, that are
      both flushes or both not, rank equal: two royal flushes in different
      suits tie however their cards are listed. */
  lemma SameValuesTie(h: seq<Card>, g: seq<Card>)
    requires |h| == CardsInAHand && |g| == CardsInAHand
    requires multiset(ValuesOf(h)) == multiset(ValuesOf(g))
    requires IsFlush(h) == IsFlush(g)
    ensures Ties(h, g)
  {
    SameValuesCounts(h, g);
    assert ValueSet(h) == ValueSet(g) by {
      forall v ensures v in ValueSet(h) <==> v in ValueSet(g) {
        ValueSetMembers(h, v);
        ValueSetMembers(g, v);
      }
    }
    assert forall d :: Holds(d, h) == Holds(d, g);
    var ch, cg := Classify(h), Classify(g);
    assert RankingIndex(ch) == RankingIndex(cg);
    assert ch == HandRankings[RankingIndex(ch)] == cg;
  }

  /** The rank-count array depends on the multiset of values alone, not on
      the suits or the order of the cards. */
  lemma SameValuesCounts(h: seq<Card>, g: seq<Card>)
    requires multiset(ValuesOf(h)) == multiset(ValuesOf(g))
    ensures Counts(h) == Counts(g)
  {
    forall i | 0 <= i < NumValues ensures Counts(h)[i] == Counts(g)[i] {
      CountsOccurrences(h, i);
      CountsOccurrences(g, i);
      OccurrencesByValue(h, i);
      OccurrencesByValue(g, i);
    }
  }

  /** Slot i counts the cards holding the one value of that slot. */
  lemma {:induction false} OccurrencesByValue(cards: seq<Card>, i: nat)
    requires i < NumValues
    ensures Occurrences(cards, i) == multiset(ValuesOf(cards))[Values[i]]
  {
    ValuesBySlot();
    if cards != [] {
      var init, c := cards[..|cards| - 1], cards[|cards| - 1];
      OccurrencesByValue(init, i);
      assert ValuesOf(cards) == ValuesOf(init) + [c.val];
      SlotInjective(c.val, Values[i]);
    }
  }

  /** A value is in the value set exactly when some card carries it. */
  lemma ValueSetMembers(cards: seq<Card>, v: Value)
    ensures v in ValueSet(cards) <==> v in multiset(ValuesOf(cards))
  {
    if v in ValueSet(cards) {
      var c :| c in cards && c.val == v;
      var k :| 0 <= k < |cards| && cards[k] == c;
      assert ValuesOf(cards)[k] == v;
    }
    if v in multiset(ValuesOf(cards)) {
      var k :| 0 <= k < |cards| && ValuesOf(cards)[k] == v;
      assert cards[k] in cards;
    }
  }
}
