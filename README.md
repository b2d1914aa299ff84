# Poker bots: hand evaluation, deck and pot

This project is a Dafny model of the card and game utilities of a small
Texas Hold 'em bot framework (`utils.py`). It covers three parts.

- **Hand evaluation.** A hand keeps its cards and a rank-count array:
  thirteen counters, where slot `i` counts the cards whose value maps to
  `i + 2`, so Ace is slot 12.
  - There is one check per category, from royal flush down to high card.
  - The straight check writes the counters out as decimal numerals,
    repeats the Ace counter in front and searches the text for `11111`.
  - The best category is the first category, in ranking order, whose
    check holds.
  - The tie-break key lists the (count, slot) pairs in descending order
    and writes each slot out `count` times.
  - Two hands compare by category first and then by key, in tuple
    (lexicographic) order.
- **The deck.** A deck holds 52 cards, built suit by suit. Shuffling
  rebuilds it through a permutation of its positions. Drawing pops cards
  from the end of the list and fails when too few remain.
- **Money.** A player pays into the game's pot and receives from it. Each
  transfer fails, moving nothing, when the payer holds too little. The
  game keeps a list of active players and drops the first occurrence of a
  player on request.

Modules:

| module | file | content |
|---|---|---|
| `Cards` | `cards.dfy` | suits, values, the value-to-slot mapping |
| `Ranking` | `ranking.dfy` | the rank-count array, the ten checks, first-match classification |
| `Straights` | `straights.dfy` | what the `11111` text search means on the counters |
| `TieBreak` | `tiebreak.dfy` | the tie-break key and its characterisation |
| `Compare` | `compare.dfy` | hand comparison |
| `Hands` | `hand.dfy` | the `Hand` class with its in-place count array |
| `Decks` | `deck.dfy` | the `Deck` class |
| `Game` | `game.dfy` | the `PokerGame` and `Player` classes |
| `HandExamples` | `hand_examples.dfy` | the concrete hands of the test suite, with the expected verdicts proved |

Where the code raises an exception, the model returns `None` or `false`
and leaves the state unchanged. The Python code makes the same changes,
because it raises before it modifies anything.

The main results are these.

- Classification is exactly "first check that holds" (`Ranking.ClassifyIs`).
- On five cards, the text search for `11111` holds exactly when five
  consecutive slots are occupied, with Ace counted both low and high
  (`Straights.StraightFiveCards`).
- The key is the only sequence that holds each slot as often as it is
  counted and is ordered by (count, slot) descending
  (`TieBreak.KeyCharacterized`).
- Comparison is a strict order with trichotomy (`Compare.CompareTrichotomy`,
  `Compare.BeatsTransitive`).
- Shuffling and drawing conserve the cards.
- Paying and receiving conserve balance plus pot.

## Model

| member | source | states |
|---|---|---|
| Cards.Rank | utils.py:8-10 | values map to 2..14: pips to their number, J/Q/K/A to 11..14 |
| Cards.Slot | utils.py:147-148 | the slot of a value is its rank minus 2, below 13, and slot 12 is exactly the Ace |
| Cards.SlotInjective | utils.py:147-148 | two values share a slot exactly when they are the same value |
| Cards.SameCard | utils.py:38-41 | card equality holds exactly when suit and value both agree |
| Cards.ValuesBySlot | utils.py:55 | the value list has 13 entries, value k sits in slot k, and every value is listed |
| Ranking.Occurrences | utils.py:146-149 | the number of cards whose value is in a slot, never more than the number of cards |
| Ranking.Counts | utils.py:143-149 | the rank-count array has 13 entries, each at most the number of cards |
| Ranking.CountsAppend | utils.py:157-161 | adding a card increments exactly the slot of its value and leaves the other slots alone |
| Ranking.CountsOccurrences | utils.py:143-149 | slot i of the array equals the number of cards whose value is in slot i |
| Ranking.OccurrencesPositive | utils.py:143-149 | a slot is non-zero exactly when some card has a value in it |
| Ranking.CountsSum | utils.py:143-149 | the counts add up to the number of cards |
| Ranking.Max | utils.py:170-171 | `max` of the counts: it is one of the entries and no entry exceeds it |
| Ranking.RankingIndex | utils.py:248-249 | the index of a category in the ranking list, with no earlier entry equal to it |
| Ranking.FirstTrue | utils.py:206-210 | the first position from k on whose check is true: no earlier position in the range is true |
| Ranking.Classify | utils.py:202-210 | the best category holds, and no category ranked above it holds |
| Ranking.ClassifyIs | utils.py:202-210 | the best category is c exactly when c holds and every category ranked above c fails |
| Straights.AceExtended | utils.py:186-187 | the search text's counts: the Ace counter first, then the 13 counters in slot order |
| Straights.ContainsMatch | utils.py:188 | the substring test holds exactly when the pattern occurs at some position |
| Straights.JoinSingleDigits | utils.py:187 | counters below 10 are written as one digit each, in order |
| Straights.StraightIsOnesRun | utils.py:183-188 | with single-digit counts, the straight check holds exactly when five consecutive counters, with Ace in front, are exactly 1 |
| Straights.OccupiedRunIsOnesRun | utils.py:183-188 | in a hand of at most five cards, five consecutive occupied slots are all exactly 1 |
| Straights.StraightFiveCards | utils.py:183-188 | on five cards, the straight check holds exactly when five consecutive slots are occupied, Ace low or high |
| Straights.RoyalFlushIsStraightFlush | utils.py:163-168 | every five-card royal flush also passes the straight-flush check |
| Straights.StraightNeedsCards | utils.py:183-188 | the straight check fails on an empty hand |
| Straights.RunBlocked | utils.py:188 | a counter other than 1 rules out every run of five that covers it |
| TieBreak.Pairs | utils.py:224-228 | every collected pair is (count, slot) for an occupied slot |
| TieBreak.Insert | utils.py:229 | inserting into a descending list keeps it descending and adds exactly that pair |
| TieBreak.SortDesc | utils.py:229 | `sort(reverse=True)`: the result is descending and is a permutation of the input |
| TieBreak.ExpandPermutation | utils.py:231-233 | permuting the pairs does not change which numbers the key holds, or how often |
| TieBreak.KeyMultiplicity | utils.py:212-234 | the key has one entry per card, and each slot occurs in it as often as it is counted |
| TieBreak.KeyOrdered | utils.py:212-234 | every key entry is a slot, and entries appear in descending (count, slot) order |
| TieBreak.KeyOrderUnique | utils.py:212-234 | two orderings with the same entries that are both descending in (count, slot) are equal |
| TieBreak.KeyCharacterized | utils.py:212-234 | a sequence is the key exactly when it holds each slot `count` times in descending (count, slot) order |
| Compare.LexTrichotomy | utils.py:252 | tuple comparison: exactly one of greater, equal or smaller holds |
| Compare.LexTransitive | utils.py:252 | tuple comparison is transitive |
| Compare.CompareTrichotomy | utils.py:236-253 | exactly one of beats, ties or loses holds, and losing to g is g beating h |
| Compare.BeatsTransitive | utils.py:243-253 | a hand that beats a second, which beats a third, beats the third |
| Compare.SameValuesTie | utils.py:236-241 | hands holding the same multiset of values, in any order and any suits, that agree on being a flush, tie |
| Compare.SameValuesCounts | utils.py:143-149 | the count array depends on the multiset of values alone, not on suits or card order |
| Compare.OccurrencesByValue | utils.py:146-149 | slot i counts exactly the cards carrying the one value of slot i |
| Compare.ValueSetMembers | utils.py:164 | a value is in the hand's value set exactly when some card carries it |
| Hands.Hand.constructor | utils.py:143-149 | the count array equals the rank-count array of the given cards |
| Hands.Hand.AddCard | utils.py:157-161 | the card is appended, exactly its slot is incremented in place, and the array stays consistent |
| Hands.Hand.CheckFlush | utils.py:176-181 | true exactly when every card has the first card's suit; needs a first card |
| Hands.Hand.Check | utils.py:163-200 | each category's check returns that category's verdict on the hand |
| Hands.Hand.GetBestHand | utils.py:202-210 | trying the categories in ranking order returns the best category |
| Hands.Hand.GetSorted | utils.py:212-234 | collecting, sorting and expanding the pairs yields the tie-break key |
| Hands.Hand.Equals | utils.py:236-241 | equal exactly when category and key both agree |
| Hands.Hand.Greater | utils.py:243-253 | greater exactly when the category ranks higher, or it is the same and the key is greater |
| Hands.Hand.Less | utils.py:126 | the ordering derived from `>` and `==` holds exactly when the other hand is greater |
| Decks.FullDeck | utils.py:53-59 | the fresh deck holds 52 cards, suit by suit, values in order |
| Decks.SuitIndex | utils.py:54 | the position of a suit in the suit list |
| Decks.DeckPosition | utils.py:57-59 | the card of suit si and value vi sits at position 13·si + vi |
| Decks.FullDeckFacts | utils.py:53-59 | the fresh deck has 52 pairwise distinct cards, and every card is in it |
| Decks.Range | utils.py:63 | `range(0, n)` lists 0..n-1 in order |
| Decks.PermutationLength | utils.py:63 | a permutation of n positions has length n |
| Decks.PermuteSameIndices | utils.py:65-66 | index lists with the same entries pick the same cards |
| Decks.PermutePreservesCards | utils.py:61-67 | shuffling by a permutation keeps the deck's size and its cards |
| Decks.Popped | utils.py:74-76 | drawing n cards takes the last card first, then the one before it, and so on |
| Decks.PoppedConserves | utils.py:69-77 | the drawn cards plus the remaining deck are the original deck |
| Decks.Deck.constructor | utils.py:53-59 | a new deck is the full 52-card deck in construction order |
| Decks.Deck.Shuffle | utils.py:61-67 | the new deck takes the old cards in permutation order and holds the same cards |
| Decks.Deck.Draw | utils.py:69-77 | fails exactly when more cards are asked for than remain; otherwise returns the last n in reverse and truncates the deck |
| Decks.Deck.GetNumCards | utils.py:79-80 | the number of cards left |
| Game.RemoveFirst | utils.py:299-300 | removes exactly one entry when the player is listed, and nothing otherwise |
| Game.RemoveFirstMultiset | utils.py:299-300 | removing the first occurrence takes one copy of that entry out of the list |
| Game.RemoveFirstAt | utils.py:299-300 | the first occurrence at position i is cut out and the rest keeps its order |
| Game.RemoveFirstDistinct | utils.py:299-300 | in a list without repeats, the player is gone and every other player stays |
| Game.PokerGame.constructor | utils.py:276-283 | turn 0, empty pot, all players active, and a fresh deck that is a shuffle of the full deck |
| Game.PokerGame.AddToPot | utils.py:285-286 | the pot grows by the amount |
| Game.PokerGame.RemoveFromPot | utils.py:288-291 | fails exactly when the amount exceeds the pot; otherwise the pot shrinks by it |
| Game.PokerGame.GetActivePlayers | utils.py:293-297 | a copy of the active-player list |
| Game.PokerGame.DeactivePlayer | utils.py:299-300 | fails exactly when the player is not active; drops the first occurrence |
| Game.Player.constructor | utils.py:93-97 | the player starts with the given balance |
| Game.Player.Pay | utils.py:108-112 | fails exactly when the amount exceeds the balance; moves it into the pot and keeps balance plus pot |
| Game.Player.Receive | utils.py:114-116 | fails exactly when the amount exceeds the pot; moves it to the balance and keeps balance plus pot |
| HandExamples.RoyalFlushHolds | test.py:94-95 | the royal-flush fixture passes the royal-flush check |
| HandExamples.RoyalFlushCategory | test.py:25-28 | the royal-flush fixture is classified as a royal flush |
| HandExamples.RoyalFlushKey | test.py:96 | its key is (12, 11, 10, 9, 8) |
| HandExamples.StraightFlushHolds | test.py:99-101 | not a royal flush, but a straight flush |
| HandExamples.StraightFlushCategory | test.py:31-34 | classified as a straight flush |
| HandExamples.StraightFlushKey | test.py:102 | its key is (8, 7, 6, 5, 4) |
| HandExamples.FourOfAKindHolds | test.py:105-108 | neither royal flush nor straight flush, but four of a kind |
| HandExamples.FourOfAKindCategory | test.py:37-41 | classified as four of a kind |
| HandExamples.FourOfAKindKey | test.py:109 | its key is (12, 12, 12, 12, 8) |
| HandExamples.FullHouseHolds | test.py:112-116 | every category above full house fails, full house holds |
| HandExamples.FullHouseCategory | test.py:44-48 | classified as a full house |
| HandExamples.FullHouseKey | test.py:117 | its key is (10, 10, 10, 8, 8) |
| HandExamples.FlushHolds | test.py:120-125 | every category above flush fails, flush holds |
| HandExamples.FlushCategory | test.py:51-54 | classified as a flush |
| HandExamples.FlushKey | test.py:126 | its key is (12, 9, 8, 7, 0) |
| HandExamples.StraightHolds | test.py:129-135 | every category above straight fails, straight holds |
| HandExamples.StraightCategory | test.py:57-61 | classified as a straight |
| HandExamples.StraightKey | test.py:136 | its key is (12, 11, 10, 9, 8) |
| HandExamples.ThreeOfAKindHolds | test.py:139-146 | every category above three of a kind fails, three of a kind holds |
| HandExamples.ThreeOfAKindCategory | test.py:64-68 | classified as three of a kind |
| HandExamples.ThreeOfAKindKey | test.py:147 | its key is (8, 8, 8, 10, 9) |
| HandExamples.TwoPairHolds | test.py:150-158 | every category above two pair fails, two pair holds |
| HandExamples.TwoPairCategory | test.py:71-75 | classified as two pair |
| HandExamples.TwoPairKey | test.py:159 | its key is (11, 11, 7, 7, 9) |
| HandExamples.OnePairHolds | test.py:162-171 | every category above one pair fails, one pair holds |
| HandExamples.OnePairCategory | test.py:78-82 | classified as one pair |
| HandExamples.OnePairKey | test.py:172 | its key is (0, 0, 8, 7, 2) |
| HandExamples.HighCardHolds | test.py:175-185 | every category above high card fails, high card holds |
| HandExamples.HighCardCategory | test.py:85-89 | classified as high card |
| HandExamples.HighCardKey | test.py:186 | its key is (12, 8, 7, 6, 1) |
| HandExamples.RoyalFlushesTie | utils.py:236-241 | A K Q J 10 of hearts and 10 J Q K A of spades compare equal |
| HandExamples.RoyalHeartsCheck | test.py:190-196 | the hearts royal flush passes the royal-flush check; A K K J 10 of hearts is a flush that fails it |
| HandExamples.SfLowStraightFlush | test.py:200 | 2-6 of hearts is a flush and a straight flush |
| HandExamples.SfWheelStraightFlush | test.py:201 | A-5 of hearts, Ace low, is a straight flush |
| HandExamples.SfNineStraightFlush | test.py:202 | 9-K of hearts is a straight flush |
| HandExamples.SfTenStraightFlush | test.py:203 | 10-A of hearts, Ace high, is a straight flush |
| HandExamples.NoSfAceKingStraightFlush | test.py:204 | A 2 3 4 K of hearts is a flush but not a straight flush |
| HandExamples.NoSfWrapStraightFlush | test.py:205 | J Q A 2 K of hearts does not wrap around: a flush, not a straight flush |
| HandExamples.NoSfPairStraightFlush | test.py:206 | K K 10 J Q of hearts is a flush, not a straight flush |
| HandExamples.NoSfGapStraightFlush | test.py:207 | 9 J Q A K of hearts is a flush, not a straight flush |

## Left out

- Randomness: `Deck.shuffle` draws its order with `random.sample`, so `Decks.Deck.Shuffle` and `Game.PokerGame.constructor` take that permutation as a parameter.
- `Decks.Deck.Draw` follows the code, not the class docstring. The docstring calls index 0 the top card; the code deals from the end of the list.
- Exceptions: `draw`, `pay`, `remove_from_pot` and `deactive_player` raise where the model returns `None` or `false`. The state is unchanged in both.
- `Game.Player.Pay`: negative amounts are accepted, as in the code, and conservation of balance plus pot holds for them too. A successful payment never leaves the balance negative, whatever the amount. A negative amount takes money out of the pot, which can leave the pot negative, so the clause keeping the pot non-negative assumes a non-negative amount.
- `Game.Player.Receive`: negative amounts are accepted, as in the code, since any amount up to the pot passes the guard. A successful receipt never leaves the pot negative. A negative amount takes money from the balance, which can leave the balance negative, so the clause keeping the balance non-negative assumes a non-negative amount.
- Balances and the pot are floats in the source and integers here. Rounding is not modelled.
- `Hands.Hand.GetBestHand` requires exactly five cards, which is the precondition the source asserts.
- `Hands.Hand.GetSorted` requires exactly five cards, because the source asserts that length before building the key. `TieBreak.Key` carries the same requirement. `Hands.Hand.Equals`, `Hands.Hand.Greater` and `Hands.Hand.Less` inherit it, since they call both methods. The model says nothing about the failed assertion on other hand sizes.
- `Game.PokerGame.constructor` requires more than two players, because the source asserts that. The model says nothing about the failed assertion for two or fewer.
- `Hands.Hand.CheckFlush` requires a non-empty hand, because the source indexes the first card. `Ranking.IsFlush` is vacuously true on an empty hand.
- `Ranking.Classify`: the source evaluates checks lazily and stops at the first that holds. The model evaluates every check (`Ranking.Flags`), which is the same because checks have no side effects.
- `Card.__gt__`, `__str__` and `__repr__` of the cards and hands, and `Hand.get_cards`, are not modelled. They only format text or build copies.
- Player fields other than the balance are not modelled. These are the strategy table, the held hand, `has_full_hand`, `get_hand`, `get_bal` and the unused `active_flag`.
- Aliasing: hands take the card list given to them without copying. The model keeps the cards as a value.
- The player list in `PokerGame` compares players by identity, as Python does for a class without `__eq__`. Players are object references here.
- The betting engine and simulators (`simulation.py`, `simulator.py`) are not part of this model.
