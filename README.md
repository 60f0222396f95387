# poker.py odds engine in Dafny

This project models the computational engine of `poker.py`, a brute-force
estimator of how often a two-card hand, together with a partial board, ends
up holding a pair, two pair, triples or quads once the board has five cards.

The engine has these parts:

- **Deck** (`cards.dfy`, module `Cards`). `makeDeck` appends one `(value, suit)`
  card for every value 1..13 and every suit D, C, H, S, then shuffles the list.
  `getMyOdds` takes the hand and board cards out with `list.remove`. The
  shuffle is `random.shuffle`'s swap loop, driven by a `picks` parameter that
  holds the random index chosen at each step.
- **Rank counting** (`counting.dfy`, module `Counting`). `getValues` drops the
  suits. `getCount` appends, for each distinct value, how many cards carry it.
  Its specification is `Sizes`, the multiset of group sizes.
- **Detectors** (`detectors.dfy`, module `Detectors`). `isPair`, `isTriple`,
  `isQuad` and `isTwoPair` each test how many groups have 2, 3 or 4 cards. The
  contracts restate each test in terms of the values themselves (`RanksWith`).
  Module `DetectorCases` holds the expectations of the test class.
- **Combinations** (`combinations.dfy`, module `Combinations`). `Choose` is
  the reference definition of every k-card draw. `PermuteDraw` is the
  recursive procedure with its early `break`, proved to return exactly
  `Choose`.
- **Odds** (`odds.dfy`, module `Odds`). `OddsOf` is the reference
  definition: remove the known cards from an unshuffled deck, draw every
  completion, and count each category. `GetMyOdds` is the procedure. It
  removes cards in a loop, then runs a counting loop over a detector table.
  It is proved to return `OddsOf` whatever the shuffle. Each error the Python
  code raises is a `Failure` value:
  - `CardNotInDeck` for the `ValueError` from `list.remove`;
  - `NoCardsToDraw` for the failed `assert(draw > 0)`;
  - `NoCompletions` for the `ZeroDivisionError` of `float(value)/float(total)`.
- `outcomes.dfy` (module `Outcomes`) holds the `Option` and `Result` types.

When no completion can be drawn, the probability divides by zero
(`NoCompletions`). When the board already has five or more cards,
`assert(draw > 0)` fails (`NoCardsToDraw`). The code does not limit the
lengths of the hand or the board, so the model accepts any.

## Model

| member | source | states |
|---|---|---|
| Cards.SuitsOfCounts | poker.py:20-21 | the inner loop appends each card of the current value exactly once |
| Cards.CardsBelowLength | poker.py:19-21 | after the loop over values 1..v-1 the deck holds 4 * (v - 1) cards |
| Cards.CardsBelowCount | poker.py:19-21 | after the loop over values 1..v-1 every card of those values is in the deck exactly once, and no other card |
| Cards.OrderedDeckFull | poker.py:17-21 | the unshuffled deck has 52 cards and holds each (value 1..13, suit) card exactly once |
| Cards.Swap | poker.py:23 | one step of the shuffle exchanges two entries, leaves the rest alone and keeps the same cards |
| Cards.Shuffle | poker.py:23 | whatever the random choices, the shuffled deck is a permutation of the input |
| Cards.MakeDeck | poker.py:13-24 | the returned deck is a permutation of the unshuffled deck: 52 cards, each exactly once |
| Cards.FirstIndex | poker.py:127 | the position `list.remove` takes a card from is its first occurrence |
| Cards.RemoveFirst | poker.py:127 | `list.remove` fails exactly when the card is absent; otherwise it takes out the first occurrence and keeps the other cards in order |
| Cards.RemoveAll | poker.py:126-127 | removing the known cards succeeds exactly when they fit in the deck, duplicates counted; it leaves the deck minus those cards, or fails on a known card |
| Cards.RemoveAllOrderFree | poker.py:23-24 | removal succeeds or fails on the same card whatever the deck order, and leaves the same cards |
| Counting.GetValues | poker.py:27-31 | one value per card, in the cards' order, with the suits dropped |
| Counting.ValuesAppend | poker.py:27-31 | the values of a concatenation are the concatenation of the values |
| Counting.ValuesOrderFree | poker.py:27-31 | reordering the cards only reorders their values |
| Counting.SizesPull | poker.py:44-45 | the group of any present value can be counted first: the group sizes do not depend on the order of the set |
| Counting.SizesOrderFree | poker.py:34-47 | the group sizes depend only on the multiset of values, not their order |
| Counting.SizesCount | poker.py:44-45 | the number of groups of size n is the number of distinct values occurring exactly n times |
| Counting.CountOne | poker.py:44-45 | counting one more value of the set keeps the loop invariant (pending values, counted group sizes, running sum) |
| Counting.CountDone | poker.py:44-47 | when the set is exhausted the counts are exactly the group sizes, one per distinct value, each at least 1, summing to the number of cards |
| Counting.GetCount | poker.py:34-47 | one entry per distinct value, each at least 1, summing to `len(cards)`, and as a multiset exactly the group sizes, in any set order |
| Detectors.Groups | poker.py:55 | `count.count(n)` is the number of distinct values occurring exactly n times |
| Detectors.IsPair | poker.py:50-55 | true iff exactly one value occurs twice and none three or four times |
| Detectors.IsTriple | poker.py:58-63 | true iff one or two values occur exactly three times |
| Detectors.IsQuad | poker.py:66-71 | true iff exactly one value occurs four times |
| Detectors.IsTwoPair | poker.py:74-79 | true iff (two values occur twice and none three times) or three values occur twice, following `and` binding tighter than `or` |
| Detectors.DetectorsOrderFree | poker.py:50-79 | every detector gives the same verdict for any reordering of the cards |
| Detectors.PairExcludes | poker.py:50-79 | a single pair excludes triples, quads and two pair |
| Detectors.QuadAlone | poker.py:50-79 | when the only group of more than one card is a quad, only isQuad holds |
| Detectors.GroupCards | poker.py:44-45 | twice the pairs plus three times the triples plus four times the quads is at most the number of cards |
| Detectors.SevenCards | poker.py:58-79 | with at most seven cards, two pair excludes triples and quads |
| DetectorCases.PairCase | poker.py:169-173 | on hand + board of the pair test only isPair holds |
| DetectorCases.TripleCase | poker.py:201-204 | on hand + board of the triples test only isTriple holds |
| DetectorCases.QuadCase | poker.py:232-235 | on hand + board of the quads test only isQuad holds |
| DetectorCases.TwoPairCase | poker.py:263-266 | on hand + board of the two-pair test only isTwoPair holds |
| DetectorCases.HighCase | poker.py:190-193 | on hand + board of the card-high test no detector holds |
| Combinations.BinomialZero | poker.py:96-98 | there is no way to draw k of n cards exactly when n < k |
| Combinations.Extend | poker.py:112-114 | appending the current card to every sub-combination keeps their number |
| Combinations.ChooseCount | poker.py:82-117 | the k-card draws from n cards number C(n, k) |
| Combinations.ChooseEmpty | poker.py:96-98 | there are no draws exactly when the deck is shorter than the draw |
| Combinations.ChooseMembers | poker.py:102-114 | the draws are exactly the sequences of k cards at distinct deck positions, listed from the latest position to the earliest |
| Combinations.DrawnFromDeck | poker.py:102-114 | a draw takes its cards from the deck, duplicates counted |
| Combinations.ChooseShape | poker.py:102-114 | every draw has exactly k cards, all from the deck |
| Combinations.ChooseDistinct | poker.py:102-114 | from a deck without repeated cards no two draws hold the same cards |
| Combinations.DrawsThrough | poker.py:103-114 | each pass of the outer loop appends exactly the draws starting at card ii, leaving those from later cards still to come |
| Combinations.NoDrawsFrom | poker.py:107-109 | once nothing can be drawn after card ii, nothing can be drawn from card ii on, so the `break` loses no draw |
| Combinations.AppendEach | poker.py:112-114 | the inner loop appends every sub-combination with the current card at its end, in order |
| Combinations.SingleCards | poker.py:90-94 | for draw == 1, one single-card draw per card in deck order |
| Combinations.PermuteDraw | poker.py:82-117 | for draw > 0 the result is exactly the list of all draw-card combinations, with the early exit losing none |
| Odds.DetectorOf | poker.py:133-137 | the table holds the four detectors, and each gives the same verdict for any reordering of the cards |
| Odds.Hits | poker.py:144-152 | a counter never exceeds the number of combinations |
| Odds.CountHits | poker.py:144-152 | the Pascal-style counter over every k-card draw equals the detector's count over the draws listed |
| Odds.CountPermutation | poker.py:23-24 | that counter does not depend on the order of the deck |
| Odds.HitsPermutation | poker.py:23-24 | a detector's count over all draws depends only on the bag of remaining cards |
| Odds.TallyPermutation | poker.py:130-152 | every counter, and the number of draws, depend only on the bag of remaining cards |
| Odds.OddsShuffleInvariant | poker.py:23-24 | the outcome of getMyOdds is the same for any two orders of the same deck |
| Odds.DrawOdds | poker.py:130-159 | after removal: assertion failure exactly when nothing is to be drawn, division by zero exactly when fewer cards remain than are drawn, otherwise C(remaining, draw) > 0 combinations counted |
| Odds.Finish | poker.py:125-130 | a `ValueError` is reported exactly when a removal failed, naming the card `list.remove` failed on |
| Odds.OddsOf | poker.py:120-159 | on any deck: ValueError exactly when the known cards do not fit in the deck, naming one of them; assertion failure exactly when they fit and the board is complete; division by zero exactly when they fit but the deck left holds fewer cards than are drawn; odds over C(len(deck) - len(hand) - len(flop), 5 - len(flop)) > 0 combinations |
| Odds.RemoveCards | poker.py:126-127 | the removal loop returns the deck without the known cards, or the first card `list.remove` fails on |
| Odds.HitsSnoc | poker.py:150-152 | one more completed hand adds one to a counter exactly when its detector accepts it |
| Odds.TallySnoc | poker.py:145-152 | counting one more combination bumps exactly the counters whose detectors accept it |
| Odds.AddHand | poker.py:150-152 | the detector loop adds one to each counter whose detector accepts the completed hand, and changes nothing else |
| Odds.CountHands | poker.py:140-152 | counters start at zero for every key and end as the number of combinations each detector accepts, completed with hand + flop |
| Odds.DrawAndCount | poker.py:130-159 | after removal: assertion failure when nothing is to be drawn, division by zero when no combination exists, otherwise the counters and the total |
| Odds.OddsFromDeck | poker.py:125-159 | on a given deck, the outcome is the reference removal, draw and count |
| Odds.GetMyOdds | poker.py:120-159 | whatever the shuffle, the outcome is that of the unshuffled deck |
| Odds.RemovableIff | poker.py:126-127 | the known cards fit in a full deck exactly when they are real cards and none is listed twice |
| Odds.CompletionsDistinct | poker.py:125-147 | from a full deck the counted combinations are pairwise different sets of cards, and no completed hand holds a card twice |
| Odds.PairShare | poker.py:144-152 | the pair counter plus any other counter is at most the total |
| Odds.TwoPairShare | poker.py:144-152 | with at most seven cards per hand, the two-pair counter plus the triple or quad counter is at most the total |
| Odds.TallyBounds | poker.py:140-152 | every category has a counter, none above the total, and a single pair is never counted with another category |
| Odds.DrawOddsBounds | poker.py:130-159 | a successful count drew a positive number of cards, over C(remaining, draw) > 0 combinations, with counters that fit |
| Odds.DrawOddsSevenCards | poker.py:130-152 | when every completed hand has at most seven cards, two pair is never counted with triples or quads |
| Odds.OddsOutcome | poker.py:120-159 | on a full deck: ValueError iff a known card is not a real card or is repeated; assertion failure iff the board is complete; division by zero iff the hand leaves too few cards; otherwise odds |
| Odds.OddsBounds | poker.py:120-159 | on a full deck the total is C(52 - len(hand) - len(flop), 5 - len(flop)) > 0 and the counters fit it; with at most two hand cards two pair never coincides with triples or quads |
| Odds.OddsFit | poker.py:140-159 | on any deck, successful odds have counters that fit the total, and with at most two hand cards two pair never coincides with triples or quads |
| Odds.ScriptRun | poker.py:273-280 | the script's hand and three-card board give odds over C(47, 2) = 1081 completions |

## Left out

- The randomness of `shuffle` is left out: its choices are the `picks` parameter, one index per swap, and every choice is allowed.
- Cards.Shuffle: states only that the result is a permutation of its input, not which permutation the picks select. Nothing downstream depends on the order.
- The probability `float(value)/float(total)` and the printing (poker.py:155-165), including the `printOdds` flag, are left out. The model returns the integer counters and the total. The division by zero of an empty draw is the `NoCompletions` error.
- In-place list updates are modelled on values: `deck.remove`, `entry.append(deck[ii])`, `result.append` and `cards += hand + flop`. Every entry of `permuteDraw`'s result is a fresh list, so no aliasing is visible to the caller.
- The order in which `getCount` walks `set(values)` is left unspecified: the model picks any remaining value.
- The iteration order of the Python 2 detector dictionary is modelled as the fixed order Pair, Triple, Quad, TwoPair. The counters do not depend on that order.
- The test class calls each one-argument detector with two arguments, so as written it raises TypeError. The model applies each detector to hand + board instead, which is what the tests mean.
- ScriptRun: states only the number of completions for the script's input, not the four counter values. Those would need all 1081 hands evaluated.
- A card with a suit other than D, C, H or S cannot be represented. Like a value outside 1..13, it would only make `list.remove` fail.
