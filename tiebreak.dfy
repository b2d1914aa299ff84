/** The tie-break key of a hand: the occupied slots as (count, slot) pairs,
    sorted in descending tuple order, each slot then written out `count`
    times. */
module TieBreak {
  import opened Cards
  import opened Ranking

  /** A (count, slot) entry of the sorting list. */
  type Pair = (nat, nat)

  /** Tuple order `a >= b` on (count, slot) pairs. */
  predicate AtLeast(a: Pair, b: Pair)
  {
    a.0 > b.0 || (a.0 == b.0 && a.1 >= b.1)
  }

  predicate SortedDesc(ps: seq<Pair>)
  {
    forall i, j :: 0 <= i < j < |ps| ==> AtLeast(ps[i], ps[j])
  }

  /** The pairs of the occupied slots, in slot order. */
  function Pairs(daa: seq<nat>): (ps: seq<Pair>)
    ensures forall p :: p in ps ==> p.1 < |daa| && p.0 == daa[p.1] && p.0 > 0
  {
    if daa == [] then []
    else
      var init := daa[..|daa| - 1];
      assert forall i :: 0 <= i < |init| ==> init[i] == daa[i];
      Pairs(init) + (if daa[|daa| - 1] > 0 then [(daa[|daa| - 1], |daa| - 1)] else [])
  }

  /** Inserts a pair into a descending list, keeping it descending. */
  function Insert(p: Pair, ps: seq<Pair>): (r: seq<Pair>)
    requires SortedDesc(ps)
    ensures SortedDesc(r)
    ensures multiset(r) == multiset(ps) + multiset{p}
  {
    if ps == [] then [p]
    else if AtLeast(p, ps[0]) then [p] + ps
    else
      var rest := Insert(p, ps[1..]);
      assert ps == [ps[0]] + ps[1..];
      assert SortedDesc([ps[0]] + rest) by {
        forall x | x in rest ensures AtLeast(ps[0], x) {
          assert x in multiset(rest);
          if x != p {
            assert x in multiset(ps[1..]);
            var m :| 0 <= m < |ps[1..]| && ps[1..][m] == x;
            assert ps[m + 1] == x;
          }
        }
        SortedCons(ps[0], rest);
      }
      [ps[0]] + rest
  }

  lemma SortedCons(a: Pair, rest: seq<Pair>)
    requires SortedDesc(rest)
    requires forall x :: x in rest ==> AtLeast(a, x)
    ensures SortedDesc([a] + rest)
  {
    var r := [a] + rest;
    forall i, j | 0 <= i < j < |r| ensures AtLeast(r[i], r[j]) {
      if i == 0 {
        assert r[j] == rest[j - 1] && r[j] in rest;
      } else {
        assert r[i] == rest[i - 1] && r[j] == rest[j - 1];
      }
    }
  }

  /** Descending sort of the pairs (the library sort with reverse order). */
  function SortDesc(ps: seq<Pair>): (r: seq<Pair>)
    ensures SortedDesc(r)
    ensures multiset(r) == multiset(ps)
  {
    if ps == [] then []
    else
      assert ps == ps[..|ps| - 1] + [ps[|ps| - 1]];
      Insert(ps[|ps| - 1], SortDesc(ps[..|ps| - 1]))
  }

  /** `n` copies of `x`. */
  function Repeat(x: nat, n: nat): (r: seq<nat>)
    ensures |r| == n && forall i :: 0 <= i < n ==> r[i] == x
  {
    seq(n, _ => x)
  }

  /** Each pair's slot written out count times, pair after pair. */
  function Expand(ps: seq<Pair>): seq<nat>
  {
    if ps == [] then [] else Expand(ps[..|ps| - 1]) + Repeat(ps[|ps| - 1].1, ps[|ps| - 1].0)
  }

  /** Extending the counts by one entry appends at most one pair. */
  lemma PairsStep(daa: seq<nat>, i: nat)
    requires i < |daa|
    ensures Pairs(daa[..i + 1]) == Pairs(daa[..i]) + (if daa[i] > 0 then [(daa[i], i)] else [])
  {
    assert daa[..i + 1][..i] == daa[..i];
  }

  /** Extending the pairs by one appends that pair's run of slots. */
  lemma ExpandStep(ps: seq<Pair>, j: nat)
    requires j < |ps|
    ensures Expand(ps[..j + 1]) == Expand(ps[..j]) + Repeat(ps[j].1, ps[j].0)
  {
    assert ps[..j + 1][..j] == ps[..j];
  }

  function TieBreakKey(daa: seq<nat>): seq<nat>
  {
    Expand(SortDesc(Pairs(daa)))
  }

  /** The tie-break key of a complete hand. */
  function Key(cards: seq<Card>): seq<nat>
    requires |cards| == CardsInAHand
  {
    TieBreakKey(Counts(cards))
  }

  // ---------------------------------------------------------------------
  // What the key holds
  // ---------------------------------------------------------------------

  lemma {:induction false} ExpandConcat(a: seq<Pair>, b: seq<Pair>)
    ensures Expand(a + b) == Expand(a) + Expand(b)
    decreases |b|
  {
    if b == [] {
      assert a + b == a;
    } else {
      assert (a + b)[..|a + b| - 1] == a + b[..|b| - 1];
      ExpandConcat(a, b[..|b| - 1]);
    }
  }

  /** Reordering the pairs does not change which slots the expansion holds, or how often. */
  lemma {:induction false} ExpandPermutation(ps: seq<Pair>, qs: seq<Pair>)
    requires multiset(ps) == multiset(qs)
    ensures multiset(Expand(ps)) == multiset(Expand(qs))
    decreases |ps|
  {
    if ps != [] {
      var last := ps[|ps| - 1];
      var init := ps[..|ps| - 1];
      assert ps == init + [last];
      assert last in multiset(qs);
      var k :| 0 <= k < |qs| && qs[k] == last;
      var rest := qs[..k] + qs[k + 1..];
      RemoveMatching(init, last, qs, k);
      ExpandPermutation(init, rest);
      assert qs == qs[..k] + [last] + qs[k + 1..];
      ExpandSplice(qs[..k], last, qs[k + 1..]);
      ExpandConcat(init, [last]);
    } else {
      assert qs == [];
    }
  }

  /** Taking the same pair out of two lists with equal multisets leaves equal multisets. */
  lemma RemoveMatching(init: seq<Pair>, last: Pair, qs: seq<Pair>, k: nat)
    requires k < |qs| && qs[k] == last
    requires multiset(init + [last]) == multiset(qs)
    ensures multiset(init) == multiset(qs[..k] + qs[k + 1..])
  {
    var rest := qs[..k] + qs[k + 1..];
    assert qs == qs[..k] + [last] + qs[k + 1..];
    assert multiset(qs) == multiset(rest) + multiset{last};
    assert multiset(init + [last]) == multiset(init) + multiset{last};
    forall y ensures multiset(init)[y] == multiset(rest)[y] {
      assert (multiset(init) + multiset{last})[y] == (multiset(rest) + multiset{last})[y];
    }
  }

  /** The expansion of a list is that of the list without one pair, plus that pair's run. */
  lemma ExpandSplice(a: seq<Pair>, p: Pair, b: seq<Pair>)
    ensures multiset(Expand(a + [p] + b)) == multiset(Expand(a + b)) + multiset(Expand([p]))
  {
    ExpandConcat(a + [p], b);
    ExpandConcat(a, [p]);
    ExpandConcat(a, b);
    MultisetSplice(Expand(a), Expand([p]), Expand(b));
  }

  lemma MultisetSplice(x: seq<nat>, y: seq<nat>, z: seq<nat>)
    ensures multiset(x + y + z) == multiset(x + z) + multiset(y)
  {
  }

  /** Written out in slot order, slot x appears daa[x] times. */
  lemma {:induction false} ExpandPairsMultiplicity(daa: seq<nat>)
    ensures |Expand(Pairs(daa))| == Sum(daa)
    ensures forall x: nat :: multiset(Expand(Pairs(daa)))[x] == if x < |daa| then daa[x] else 0
  {
    if daa != [] {
      var n := |daa| - 1;
      var init := daa[..n];
      ExpandPairsMultiplicity(init);
      var tail: seq<Pair> := if daa[n] > 0 then [(daa[n], n)] else [];
      var whole: seq<nat>, front: seq<nat>, back: seq<nat> := Expand(Pairs(daa)), Expand(Pairs(init)), Expand(tail);
      ExpandPairsSplit(daa, tail);
      TailMultiplicity(tail, daa[n], n);
      assert Sum(daa) == Sum(init) + daa[n];
      MultiplicityStep(daa, whole, front, back);
    }
  }

  /** The expansion of the pairs splits at the last slot. */
  lemma ExpandPairsSplit(daa: seq<nat>, tail: seq<Pair>)
    requires |daa| > 0
    requires tail == if daa[|daa| - 1] > 0 then [(daa[|daa| - 1], |daa| - 1)] else []
    ensures Expand(Pairs(daa)) == Expand(Pairs(daa[..|daa| - 1])) + Expand(tail)
  {
    var n := |daa| - 1;
    PairsStep(daa, n);
    assert daa[..n + 1] == daa;
    ExpandConcat(Pairs(daa[..n]), tail);
  }

  /** Joins the multiplicities of the first n slots and of slot n. */
  lemma MultiplicityStep(daa: seq<nat>, whole: seq<nat>, front: seq<nat>, back: seq<nat>)
    requires |daa| > 0 && whole == front + back
    requires forall x: nat :: multiset(front)[x] == if x < |daa| - 1 then daa[..|daa| - 1][x] else 0
    requires forall x: nat :: multiset(back)[x] == if x == |daa| - 1 then daa[|daa| - 1] else 0
    ensures forall x: nat :: multiset(whole)[x] == if x < |daa| then daa[x] else 0
  {
    forall x: nat ensures multiset(whole)[x] == if x < |daa| then daa[x] else 0 {
      assert multiset(whole)[x] == multiset(front)[x] + multiset(back)[x];
    }
  }

  /** The expansion of the pair list for one trailing entry holds its slot `count` times. */
  lemma TailMultiplicity(tail: seq<Pair>, count: nat, n: nat)
    requires tail == if count > 0 then [(count, n)] else []
    ensures |Expand(tail)| == count
    ensures forall x: nat :: multiset(Expand(tail))[x] == if x == n then count else 0
  {
    if count > 0 {
      assert tail[..0] == [];
      assert Expand(tail) == Repeat(n, count);
    }
    forall x: nat ensures multiset(Expand(tail))[x] == if x == n then count else 0 {
      if count > 0 {
        RepeatMultiplicity(n, count, x);
      }
    }
  }

  lemma {:induction false} RepeatMultiplicity(x: nat, n: nat, y: nat)
    ensures multiset(Repeat(x, n))[y] == if y == x then n else 0
  {
    if n > 0 {
      RepeatMultiplicity(x, n - 1, y);
      assert Repeat(x, n) == Repeat(x, n - 1) + [x];
    } else {
      assert Repeat(x, n) == [];
    }
  }

  /** The key holds slot x exactly daa[x] times, and nothing else; so its
      length is the number of cards. */
  lemma KeyMultiplicity(daa: seq<nat>)
    ensures |TieBreakKey(daa)| == Sum(daa)
    ensures forall x: nat :: multiset(TieBreakKey(daa))[x] == if x < |daa| then daa[x] else 0
  {
    ExpandPairsMultiplicity(daa);
    ExpandPermutation(SortDesc(Pairs(daa)), Pairs(daa));
    assert |TieBreakKey(daa)| == |multiset(TieBreakKey(daa))| == |multiset(Expand(Pairs(daa)))|;
  }

  /** Every entry of an expansion is the slot of one of its pairs. */
  lemma {:induction false} ExpandFrom(ps: seq<Pair>, i: nat)
    requires i < |Expand(ps)|
    ensures exists p :: p in ps && p.1 == Expand(ps)[i]
  {
    var init := ps[..|ps| - 1];
    if i < |Expand(init)| {
      ExpandFrom(init, i);
      var p :| p in init && p.1 == Expand(ps)[i];
      assert p in ps;
    } else {
      assert ps[|ps| - 1] in ps;
    }
  }

  /** Ordered pairs that agree with a count array expand to a key whose
      entries are in descending (count, slot) order. */
  lemma {:induction false} ExpandOrdered(ps: seq<Pair>, daa: seq<nat>)
    requires SortedDesc(ps)
    requires forall p :: p in ps ==> p.1 < |daa| && p.0 == daa[p.1]
    ensures forall i :: 0 <= i < |Expand(ps)| ==> Expand(ps)[i] < |daa|
    ensures forall i, j :: 0 <= i < j < |Expand(ps)| ==>
      AtLeast((daa[Expand(ps)[i]], Expand(ps)[i]), (daa[Expand(ps)[j]], Expand(ps)[j]))
  {
    if ps != [] {
      var init, last := ps[..|ps| - 1], ps[|ps| - 1];
      assert forall p :: p in init ==> p in ps;
      ExpandOrdered(init, daa);
      var e := Expand(ps);
      var n := |Expand(init)|;
      forall i | 0 <= i < |e| ensures e[i] < |daa| {
        ExpandFrom(ps, i);
      }
      forall i, j | 0 <= i < j < |e|
        ensures AtLeast((daa[e[i]], e[i]), (daa[e[j]], e[j]))
      {
        if j < n {
          assert e[i] == Expand(init)[i] && e[j] == Expand(init)[j];
        } else if i >= n {
          assert e[i] == last.1 == e[j];
        } else {
          assert e[i] == Expand(init)[i];
          ExpandFrom(init, i);
          var p :| p in init && p.1 == e[i];
          var k :| 0 <= k < |init| && init[k] == p;
          assert AtLeast(ps[k], ps[|ps| - 1]);
          assert e[j] == last.1;
        }
      }
    }
  }

  /** The key lists the occupied slots grouped in descending (count, slot) order. */
  lemma KeyOrdered(daa: seq<nat>)
    ensures forall i :: 0 <= i < |TieBreakKey(daa)| ==> TieBreakKey(daa)[i] < |daa|
    ensures forall i, j :: 0 <= i < j < |TieBreakKey(daa)| ==>
      AtLeast((daa[TieBreakKey(daa)[i]], TieBreakKey(daa)[i]),
              (daa[TieBreakKey(daa)[j]], TieBreakKey(daa)[j]))
  {
    var sorted := SortDesc(Pairs(daa));
    forall p | p in sorted ensures p.1 < |daa| && p.0 == daa[p.1] {
      assert p in multiset(Pairs(daa));
    }
    ExpandOrdered(sorted, daa);
  }

  /** Every entry of `s` is a slot, and entries come in descending (count, slot) order. */
  predicate KeyOrder(daa: seq<nat>, s: seq<nat>)
  {
    && (forall i :: 0 <= i < |s| ==> s[i] < |daa|)
    && (forall i, j :: 0 <= i < j < |s| ==> AtLeast((daa[s[i]], s[i]), (daa[s[j]], s[j])))
  }

  /** `s` holds slot x exactly daa[x] times and nothing else. */
  ghost predicate KeyCounts(daa: seq<nat>, s: seq<nat>)
  {
    forall x: nat :: multiset(s)[x] == if x < |daa| then daa[x] else 0
  }

  lemma KeyOrderTail(daa: seq<nat>, s: seq<nat>)
    requires KeyOrder(daa, s) && s != []
    ensures KeyOrder(daa, s[1..])
  {
    var t := s[1..];
    forall i, j | 0 <= i < j < |t| ensures AtLeast((daa[t[i]], t[i]), (daa[t[j]], t[j])) {
      assert t[i] == s[i + 1] && t[j] == s[j + 1];
    }
  }

  /** The head of a list in descending order is at least any member. */
  lemma KeyOrderHead(daa: seq<nat>, s: seq<nat>, x: nat)
    requires KeyOrder(daa, s) && x in s
    ensures s[0] < |daa| && x < |daa| && AtLeast((daa[s[0]], s[0]), (daa[x], x))
  {
    var i :| 0 <= i < |s| && s[i] == x;
    if i > 0 {
      assert AtLeast((daa[s[0]], s[0]), (daa[s[i]], s[i]));
    }
  }

  lemma MultisetTail(s: seq<nat>, t: seq<nat>)
    requires multiset(s) == multiset(t) && s != [] && t != [] && s[0] == t[0]
    ensures multiset(s[1..]) == multiset(t[1..])
  {
    assert s == [s[0]] + s[1..] && t == [t[0]] + t[1..];
    forall y ensures multiset(s[1..])[y] == multiset(t[1..])[y] {
      assert multiset(s)[y] == multiset{s[0]}[y] + multiset(s[1..])[y];
      assert multiset(t)[y] == multiset{t[0]}[y] + multiset(t[1..])[y];
    }
  }

  /** Two lists in descending (count, slot) order with the same entries are equal. */
  lemma {:induction false} KeyOrderUnique(daa: seq<nat>, s: seq<nat>, t: seq<nat>)
    requires KeyOrder(daa, s) && KeyOrder(daa, t)
    requires multiset(s) == multiset(t)
    ensures s == t
    decreases |s|
  {
    assert |s| == |multiset(s)| == |multiset(t)| == |t|;
    if s != [] {
      assert t[0] in multiset(s) && s[0] in multiset(t);
      KeyOrderHead(daa, s, t[0]);
      KeyOrderHead(daa, t, s[0]);
      MultisetTail(s, t);
      KeyOrderTail(daa, s);
      KeyOrderTail(daa, t);
      KeyOrderUnique(daa, s[1..], t[1..]);
      assert s == [s[0]] + s[1..] && t == [t[0]] + t[1..];
    }
  }

  /** The key is the one list that holds each slot as often as the count
      array says and lists them in descending (count, slot) order. */
  lemma KeyCharacterized(daa: seq<nat>, s: seq<nat>)
    ensures KeyCounts(daa, TieBreakKey(daa)) && KeyOrder(daa, TieBreakKey(daa))
    ensures KeyCounts(daa, s) && KeyOrder(daa, s) <==> s == TieBreakKey(daa)
  {
    KeyMultiplicity(daa);
    KeyOrdered(daa);
    if KeyCounts(daa, s) && KeyOrder(daa, s) {
      var key := TieBreakKey(daa);
      assert multiset(s) == multiset(key) by {
        forall y ensures multiset(s)[y] == multiset(key)[y] {
        }
      }
      KeyOrderUnique(daa, s, key);
    }
  }
}
