/** What the textual straight check means: for single-digit counts it finds
    five consecutive slots holding exactly one card each, the Ace counting
    both below the Two and above the King; for a five-card hand that is the
    same as five consecutive occupied slots. */
module Straights {
  import opened Cards
  import opened Ranking

  /** The rank-count array with the Ace slot repeated in front (the low Ace). */
  function AceExtended(daa: seq<nat>): (ext: seq<nat>)
    requires |daa| == NumValues
    ensures |ext| == NumValues + 1 && ext[0] == daa[12]
    ensures forall j :: 1 <= j < |ext| ==> ext[j] == daa[j - 1]
  {
    [daa[12]] + daa
  }

  /** Five consecutive entries from position k hold exactly one each. */
  predicate OnesRun(ext: seq<nat>, k: int)
  {
    0 <= k && k + 5 <= |ext| && forall j :: k <= j < k + 5 ==> ext[j] == 1
  }

  /** Five consecutive entries from position k are non-zero. */
  predicate OccupiedRun(ext: seq<nat>, k: int)
  {
    0 <= k && k + 5 <= |ext| && forall j :: k <= j < k + 5 ==> ext[j] >= 1
  }

  /** `pat` occurs in `s` at position k. */
  predicate MatchAt(s: string, pat: string, k: int)
  {
    0 <= k && k + |pat| <= |s| && s[k..k + |pat|] == pat
  }

  /** The substring test succeeds exactly when the pattern occurs at some position. */
  lemma {:induction false} ContainsMatch(s: string, pat: string)
    ensures Contains(s, pat) <==> exists k :: MatchAt(s, pat, k)
    decreases |s|
  {
    if |s| >= |pat| && s[..|pat|] == pat {
      assert MatchAt(s, pat, 0);
    } else if |s| >= |pat| {
      ContainsMatch(s[1..], pat);
      forall k | MatchAt(s[1..], pat, k) ensures MatchAt(s, pat, k + 1) {
        assert s[1..][k..k + |pat|] == s[k + 1..k + 1 + |pat|];
      }
      forall k | MatchAt(s, pat, k) ensures k > 0 && MatchAt(s[1..], pat, k - 1) {
        assert s[1..][k - 1..k - 1 + |pat|] == s[k..k + |pat|];
      }
    } else {
      forall k ensures !MatchAt(s, pat, k) {
      }
    }
  }

  /** Single-digit counts are written one character each. */
  lemma {:induction false} JoinSingleDigits(counts: seq<nat>)
    requires forall j :: 0 <= j < |counts| ==> counts[j] < 10
    ensures |JoinDecimal(counts)| == |counts|
    ensures forall j :: 0 <= j < |counts| ==> JoinDecimal(counts)[j] == DigitChar(counts[j])
  {
    if counts != [] {
      JoinSingleDigits(counts[..|counts| - 1]);
    }
  }

  /** For counts below ten the "11111" search finds exactly a run of five
      slots holding one card each, the Ace slot also counting low. */
  lemma StraightIsOnesRun(daa: seq<nat>)
    requires |daa| == NumValues
    requires forall j :: 0 <= j < |daa| ==> daa[j] < 10
    ensures IsStraight(daa) <==> exists k :: OnesRun(AceExtended(daa), k)
  {
    var ext := AceExtended(daa);
    var s := Decimal(daa[12]) + JoinDecimal(daa);
    JoinSingleDigits(daa);
    assert |s| == |ext|;
    assert forall j :: 0 <= j < |s| ==> ext[j] < 10 && s[j] == DigitChar(ext[j]);
    ContainsMatch(s, FiveOnes);
    forall k ensures MatchAt(s, FiveOnes, k) <==> OnesRun(ext, k) {
      DigitsMatch(s, ext, k);
    }
  }

  /** On a text of single digits, "11111" occurs at k exactly where five entries equal one. */
  lemma DigitsMatch(s: string, ext: seq<nat>, k: int)
    requires |s| == |ext|
    requires forall j :: 0 <= j < |s| ==> ext[j] < 10 && s[j] == DigitChar(ext[j])
    ensures MatchAt(s, FiveOnes, k) <==> OnesRun(ext, k)
  {
    if 0 <= k && k + 5 <= |s| {
      if MatchAt(s, FiveOnes, k) {
        forall j | k <= j < k + 5 ensures ext[j] == 1 {
          assert s[k..k + 5][j - k] == '1';
        }
      }
      if OnesRun(ext, k) {
        assert s[k..k + 5] == FiveOnes;
      }
    }
  }

  /** Number of non-zero entries. */
  function Occupied(s: seq<nat>): (n: nat)
    ensures n <= |s|
  {
    if s == [] then 0 else Occupied(s[..|s| - 1]) + (if s[|s| - 1] >= 1 then 1 else 0)
  }

  lemma {:induction false} OccupiedConcat(a: seq<nat>, b: seq<nat>)
    ensures Occupied(a + b) == Occupied(a) + Occupied(b)
    decreases |b|
  {
    if b != [] {
      assert (a + b)[..|a + b| - 1] == a + b[..|b| - 1];
      OccupiedConcat(a, b[..|b| - 1]);
    } else {
      assert a + b == a;
    }
  }

  lemma {:induction false} OccupiedAll(s: seq<nat>)
    requires forall j :: 0 <= j < |s| ==> s[j] >= 1
    ensures Occupied(s) == |s|
  {
    if s != [] {
      OccupiedAll(s[..|s| - 1]);
    }
  }

  /** Every occupied slot holds at least one card, and a slot holding two
      adds one more to the sum. */
  lemma {:induction false} SumAtLeastOccupied(s: seq<nat>)
    ensures Sum(s) >= Occupied(s)
    ensures (exists j :: 0 <= j < |s| && s[j] >= 2) ==> Sum(s) >= Occupied(s) + 1
  {
    if s != [] {
      var init := s[..|s| - 1];
      SumAtLeastOccupied(init);
      if exists j :: 0 <= j < |s| && s[j] >= 2 {
        var j :| 0 <= j < |s| && s[j] >= 2;
        if j < |s| - 1 {
          assert init[j] >= 2;
        }
      }
    }
  }

  /** A run of five occupied slots in the Ace-extended array means at
      least five occupied slots in the count array. */
  lemma OccupiedRunCount(daa: seq<nat>, k: int)
    requires |daa| == NumValues && OccupiedRun(AceExtended(daa), k)
    ensures Occupied(daa) >= 5
  {
    var ext := AceExtended(daa);
    if k >= 1 {
      var run := daa[k - 1..k + 4];
      assert daa == daa[..k - 1] + run + daa[k + 4..];
      OccupiedConcat(daa[..k - 1], run);
      OccupiedConcat(daa[..k - 1] + run, daa[k + 4..]);
      forall i | 0 <= i < |run| ensures run[i] >= 1 {
        assert run[i] == ext[k + i];
      }
      OccupiedAll(run);
    } else {
      var low, mid := daa[..4], daa[4..12];
      assert daa == low + mid + [daa[12]];
      OccupiedConcat(low, mid);
      OccupiedConcat(low + mid, [daa[12]]);
      forall i | 0 <= i < |low| ensures low[i] >= 1 {
        assert low[i] == ext[i + 1];
      }
      OccupiedAll(low);
    }
  }

  /** With at most five cards, a run of five occupied slots holds exactly one card per slot. */
  lemma OccupiedRunIsOnesRun(daa: seq<nat>, k: int)
    requires |daa| == NumValues && Sum(daa) <= CardsInAHand
    requires OccupiedRun(AceExtended(daa), k)
    ensures OnesRun(AceExtended(daa), k)
  {
    var ext := AceExtended(daa);
    if !OnesRun(ext, k) {
      var j :| k <= j < k + 5 && ext[j] != 1;
      if j == 0 {
        assert daa[12] >= 2;
      } else {
        assert daa[j - 1] >= 2;
      }
      OccupiedRunCount(daa, k);
      SumAtLeastOccupied(daa);
      assert false;
    }
  }

  /** For a five-card hand, the straight check holds exactly when five
      consecutive slots of the Ace-extended count array are occupied. */
  lemma StraightFiveCards(cards: seq<Card>)
    requires |cards| == CardsInAHand
    ensures IsStraight(Counts(cards)) <==> exists k :: OccupiedRun(AceExtended(Counts(cards)), k)
  {
    var daa := Counts(cards);
    CountsSum(cards);
    StraightIsOnesRun(daa);
    forall k | OccupiedRun(AceExtended(daa), k) ensures OnesRun(AceExtended(daa), k) {
      OccupiedRunIsOnesRun(daa, k);
    }
    forall k | OnesRun(AceExtended(daa), k) ensures OccupiedRun(AceExtended(daa), k) {
    }
  }

  /** A five-card royal flush also passes the straight-flush check; the
      first-match order is what labels it a royal flush. */
  lemma RoyalFlushIsStraightFlush(cards: seq<Card>)
    requires |cards| == CardsInAHand && IsRoyalFlush(cards)
    ensures IsStraightFlush(cards)
  {
    var daa := Counts(cards);
    forall v | v in RoyalFlushVals ensures daa[Slot(v)] >= 1 {
      assert v in ValueSet(cards);
      var c :| c in cards && c.val == v;
      OccurrencesPositive(cards, Slot(v));
      CountsOccurrences(cards, Slot(v));
    }
    assert daa[Slot(Pip(10))] >= 1;
    assert OccupiedRun(AceExtended(daa), 9);
    StraightFiveCards(cards);
  }

  /** An empty hand is never a straight, so the straight-flush check never
      reaches the flush check with no cards. */
  lemma StraightNeedsCards(cards: seq<Card>)
    ensures IsStraight(Counts(cards)) ==> |cards| > 0
  {
    if cards == [] {
      var daa := Counts(cards);
      StraightIsOnesRun(daa);
      forall k | 0 <= k < NumValues + 1 ensures AceExtended(daa)[k] == 0 {
      }
      forall k ensures !OnesRun(AceExtended(daa), k) {
        if 0 <= k && k + 5 <= NumValues + 1 {
          assert AceExtended(daa)[k] == 0;
        }
      }
    }
  }

  /** An entry other than one breaks every five-entry window through it. */
  lemma RunBlocked(ext: seq<nat>, z: int)
    requires 0 <= z < |ext| && ext[z] != 1
    ensures forall k :: z - 5 < k <= z ==> !OnesRun(ext, k)
  {
  }
}
