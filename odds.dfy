/**
 * The integer part of getMyOdds in poker.py: take the known cards out of a
 * shuffled deck, draw every completion of the board, and count for each hand
 * category how many completions, together with the known cards, fall in it.
 * OddsOf is the reference definition on an unshuffled deck; GetMyOdds is the
 * procedure, proved to return OddsOf whatever the shuffle.
 */
module Odds {
  import opened Outcomes
  import opened Cards
  import opened Detectors
  import opened Combinations
  import Counting

  /** The number of cards on a complete board. */
  const FLOP_SIZE: int := 5

  /** How many board cards are still to come: `FLOP_SIZE - len(flop)`. */
  function ToDraw(flop: seq<Card>): int {
    FLOP_SIZE - |flop|
  }

  /** The keys of getMyOdds' detector table. */
  datatype Category = Pair | Triple | Quad | TwoPair

  const CATEGORIES: seq<Category> := [Pair, Triple, Quad, TwoPair]

  /** Where each key sits in CATEGORIES. */
  function Position(cat: Category): (i: nat)
    ensures i < |CATEGORIES| && CATEGORIES[i] == cat
    ensures forall j :: 0 <= j < |CATEGORIES| && CATEGORIES[j] == cat ==> j == i
  {
    match cat
    case Pair => 0
    case Triple => 1
    case Quad => 2
    case TwoPair => 3
  }

  /** A hand-category predicate, as stored in getMyOdds' detector table. */
  type Detector = seq<Card> -> bool

  /** The detector registered under each key; each sees the cards as a bag. */
  function DetectorOf(cat: Category): (r: Detector)
    ensures OrderFree(r)
  {
    DetectorsSeeBags();
    match cat
    case Pair => IsPair
    case Triple => IsTriple
    case Quad => IsQuad
    case TwoPair => IsTwoPair
  }

  /** A detector that sees the cards as a bag. */
  ghost predicate OrderFree(detect: Detector) {
    forall a: seq<Card>, b: seq<Card> :: multiset(a) == multiset(b) ==> detect(a) == detect(b)
  }

  /** DetectorsOrderFree, for every pair of reorderings at once. */
  lemma DetectorsSeeBags()
    ensures OrderFree(IsPair) && OrderFree(IsTriple) && OrderFree(IsQuad) && OrderFree(IsTwoPair)
  {
    forall a: seq<Card>, b: seq<Card> | multiset(a) == multiset(b) ensures IsPair(a) == IsPair(b) {
      DetectorsOrderFree(a, b);
    }
    forall a: seq<Card>, b: seq<Card> | multiset(a) == multiset(b) ensures IsTriple(a) == IsTriple(b) {
      DetectorsOrderFree(a, b);
    }
    forall a: seq<Card>, b: seq<Card> | multiset(a) == multiset(b) ensures IsQuad(a) == IsQuad(b) {
      DetectorsOrderFree(a, b);
    }
    forall a: seq<Card>, b: seq<Card> | multiset(a) == multiset(b) ensures IsTwoPair(a) == IsTwoPair(b) {
      DetectorsOrderFree(a, b);
    }
  }

  /**
   * Why getMyOdds produces no odds: `deck.remove` raised ValueError for a
   * card, or the board was already complete and permuteDraw's assertion
   * `draw > 0` failed, or no completion could be drawn and the probability
   * `float(value)/float(total)` divides by zero.
   */
  datatype OddsError = CardNotInDeck(card: Card) | NoCardsToDraw(draw: int) | NoCompletions

  /** The counter of every category, and the number of completions drawn. */
  datatype Odds = Odds(hits: map<Category, nat>, total: nat)

  /** How many of the combinations, completed with the known cards, the detector accepts. */
  function Hits(detect: Detector, combos: seq<seq<Card>>, known: seq<Card>): (r: nat)
    ensures r <= |combos|
  {
    if combos == [] then 0
    else
      var last := combos[|combos| - 1];
      Hits(detect, combos[..|combos| - 1], known) + (if detect(last + known) then 1 else 0)
  }

  /** Every counter of a detector table. */
  function TallyWith(detectors: Category -> Detector, combos: seq<seq<Card>>, known: seq<Card>): map<Category, nat> {
    map cat | cat in CATEGORIES :: Hits(detectors(cat), combos, known)
  }

  /** Every counter of getMyOdds' table. */
  function Tally(combos: seq<seq<Card>>, known: seq<Card>): map<Category, nat> {
    TallyWith(DetectorOf, combos, known)
  }

  /**
   * What getMyOdds computes from an unshuffled deck: the deck without the
   * hand and the board, every draw of the missing board cards from it, and
   * the counters over those draws.
   */
  function OddsOf(hand: seq<Card>, flop: seq<Card>, deck: seq<Card>): (r: Result<Odds, OddsError>)
    ensures r.Failure? && r.error.CardNotInDeck? <==> !(multiset(hand + flop) <= multiset(deck))
    ensures r.Failure? && r.error.CardNotInDeck? ==> r.error.card in hand + flop
    ensures r == Failure(NoCardsToDraw(ToDraw(flop))) <==>
              multiset(hand + flop) <= multiset(deck) && FLOP_SIZE <= |flop|
    ensures r == Failure(NoCompletions) <==>
              multiset(hand + flop) <= multiset(deck) && |flop| < FLOP_SIZE && |deck| - |hand| < FLOP_SIZE
    ensures r.Success? ==> r.value.total == Binomial(|deck| - |hand| - |flop|, ToDraw(flop)) > 0
  {
    var removed := RemoveAll(deck, hand + flop);
    assert removed.Success? ==> |removed.value| == |deck| - |hand| - |flop|;
    Finish(removed, hand, flop)
  }

  /** The odds once the known cards have been taken out of the deck, or why there are none. */
  function Finish(removed: Result<seq<Card>, Card>, hand: seq<Card>, flop: seq<Card>): (r: Result<Odds, OddsError>)
    ensures r.Failure? && r.error.CardNotInDeck? <==> removed.Failure?
    ensures removed.Failure? ==> r.error.card == removed.error
  {
    match removed
    case Failure(card) => Failure(CardNotInDeck(card))
    case Success(rest) => DrawOdds(rest, ToDraw(flop), hand + flop)
  }

  /** The counters over every draw of the missing board cards from the rest of the deck. */
  function DrawOdds(rest: seq<Card>, draw: int, known: seq<Card>): (r: Result<Odds, OddsError>)
    ensures r == Failure(NoCardsToDraw(draw)) <==> draw <= 0
    ensures r == Failure(NoCompletions) <==> 0 < draw && |rest| < draw
    ensures r.Success? ==> r.value.total == Binomial(|rest|, draw) > 0
  {
    if draw <= 0 then Failure(NoCardsToDraw(draw))
    else
      var combos := Choose(rest, draw);
      ChooseEmpty(rest, draw);
      ChooseCount(rest, draw);
      if combos == [] then Failure(NoCompletions)
      else Success(Odds(Tally(combos, known), |combos|))
  }

  lemma {:induction false} HitsAppend(detect: Detector, a: seq<seq<Card>>, b: seq<seq<Card>>, known: seq<Card>)
    ensures Hits(detect, a + b, known) == Hits(detect, a, known) + Hits(detect, b, known)
    decreases |b|
  {
    if b == [] {
      assert a + b == a;
    } else {
      HitsAppend(detect, a, b[..|b| - 1], known);
      assert (a + b)[..|a + b| - 1] == a + b[..|b| - 1];
    }
  }

  /** Putting x at the end of every combination is moving it into the known cards. */
  lemma {:induction false} HitsExtend(detect: Detector, combos: seq<seq<Card>>, x: Card, known: seq<Card>)
    ensures Hits(detect, Extend(combos, x), known) == Hits(detect, combos, [x] + known)
    decreases |combos|
  {
    if combos != [] {
      var n := |combos| - 1;
      HitsExtend(detect, combos[..n], x, known);
      assert Extend(combos, x)[..n] == Extend(combos[..n], x);
      assert Extend(combos, x)[n] + known == combos[n] + ([x] + known);
    }
  }

  /** Only the bag of known cards matters. */
  lemma {:induction false} HitsKnownOrderFree(detect: Detector, combos: seq<seq<Card>>, k1: seq<Card>, k2: seq<Card>)
    requires OrderFree(detect) && multiset(k1) == multiset(k2)
    ensures Hits(detect, combos, k1) == Hits(detect, combos, k2)
    decreases |combos|
  {
    if combos != [] {
      var n := |combos| - 1;
      HitsKnownOrderFree(detect, combos[..n], k1, k2);
      assert multiset(combos[n] + k1) == multiset(combos[n] + k2);
    }
  }

  /** The counter over Choose, split on whether the first card x is drawn. */
  lemma HitsStep(detect: Detector, deck: seq<Card>, x: Card, tail: seq<Card>, k: nat, k1: nat, known: seq<Card>)
    requires deck == [x] + tail && k == k1 + 1
    ensures Hits(detect, Choose(deck, k), known)
         == Hits(detect, Choose(tail, k1), [x] + known) + Hits(detect, Choose(tail, k), known)
  {
    assert deck[0] == x && deck[1..] == tail;
    assert Choose(deck, k) == Extend(Choose(tail, k1), x) + Choose(tail, k);
    HitsAppend(detect, Extend(Choose(tail, k1), x), Choose(tail, k), known);
    HitsExtend(detect, Choose(tail, k1), x, known);
  }

  /** The deck with position i taken out. */
  function Delete(deck: seq<Card>, i: nat): (r: seq<Card>)
    requires i < |deck|
    ensures |r| == |deck| - 1
  {
    deck[..i] + deck[i + 1..]
  }

  /**
   * The counter over every k-card draw from deck, computed by the same split
   * as Choose without listing the draws.
   */
  function Count(detect: Detector, deck: seq<Card>, k: nat, known: seq<Card>): nat
    decreases |deck|
  {
    if k == 0 then (if detect(known) then 1 else 0)
    else if deck == [] then 0
    else Count(detect, deck[1..], k - 1, [deck[0]] + known) + Count(detect, deck[1..], k, known)
  }

  lemma {:induction false} CountHits(detect: Detector, deck: seq<Card>, k: nat, known: seq<Card>)
    ensures Count(detect, deck, k, known) == Hits(detect, Choose(deck, k), known)
    decreases |deck|
  {
    if k == 0 {
      var none: seq<Card> := [];
      assert Choose(deck, 0) == [none];
      assert [none][..0] == [];
      assert none + known == known;
    } else if deck != [] {
      var x, tail, k1: nat := deck[0], deck[1..], k - 1;
      assert deck == [x] + tail;
      assert Count(detect, deck, k, known) == Count(detect, tail, k1, [x] + known) + Count(detect, tail, k, known);
      HitsStep(detect, deck, x, tail, k, k1, known);
      CountHits(detect, tail, k1, [x] + known);
      CountHits(detect, tail, k, known);
    }
  }

  lemma {:induction false} CountKnownOrderFree(detect: Detector, deck: seq<Card>, k: nat, k1: seq<Card>, k2: seq<Card>)
    requires OrderFree(detect) && multiset(k1) == multiset(k2)
    ensures Count(detect, deck, k, k1) == Count(detect, deck, k, k2)
    decreases |deck|
  {
    if k != 0 && deck != [] {
      var x := deck[0];
      assert multiset([x] + k1) == multiset([x] + k2);
      CountKnownOrderFree(detect, deck[1..], k - 1, [x] + k1, [x] + k2);
      CountKnownOrderFree(detect, deck[1..], k, k1, k2);
    }
  }

  /** The counter split on whether the card at any position i is drawn. */
  lemma {:induction false} CountPull(detect: Detector, deck: seq<Card>, k: nat, k1: nat, known: seq<Card>, i: nat)
    requires OrderFree(detect) && k == k1 + 1 && i < |deck|
    ensures Count(detect, deck, k, known)
         == Count(detect, Delete(deck, i), k1, [deck[i]] + known) + Count(detect, Delete(deck, i), k, known)
    decreases i, 1
  {
    if i == 0 {
      assert Delete(deck, 0) == deck[1..];
    } else {
      var j: nat := i - 1;
      var a, b, tail := deck[0], deck[i], deck[1..];
      var tail' := Delete(tail, j);
      var del := Delete(deck, i);
      assert del == [a] + tail';
      assert del[1..] == tail' && del[0] == a && tail[j] == b;
      assert Count(detect, deck, k, known)
          == Count(detect, tail, k1, [a] + known) + Count(detect, tail, k, known);
      assert Count(detect, del, k, known)
          == Count(detect, tail', k1, [a] + known) + Count(detect, tail', k, known);
      CountPull(detect, tail, k, k1, known, j);
      CountPullFirst(detect, deck, k1, known, i);
    }
  }

  /**
   * The draws through the first card of deck, counted before and after
   * card i is pulled out: the companion step of CountPull.
   */
  lemma {:induction false} CountPullFirst(detect: Detector, deck: seq<Card>, k1: nat, known: seq<Card>, i: nat)
    requires OrderFree(detect) && 0 < i < |deck|
    ensures var a, b, tail := deck[0], deck[i], deck[1..];
      Count(detect, tail, k1, [a] + known) + Count(detect, Delete(tail, i - 1), k1, [b] + known)
        == Count(detect, Delete(deck, i), k1, [b] + known) + Count(detect, Delete(tail, i - 1), k1, [a] + known)
    decreases i, 0
  {
    var j: nat := i - 1;
    var a, b, tail := deck[0], deck[i], deck[1..];
    var tail' := Delete(tail, j);
    var del := Delete(deck, i);
    assert del == [a] + tail';
    assert del[1..] == tail' && del[0] == a && tail[j] == b;
    if k1 != 0 {
      var k2: nat := k1 - 1;
      var ab, ba := [a] + ([b] + known), [b] + ([a] + known);
      CountPull(detect, tail, k1, k2, [a] + known, j);
      assert Count(detect, del, k1, [b] + known)
          == Count(detect, tail', k2, ab) + Count(detect, tail', k1, [b] + known);
      assert Count(detect, tail', k2, ba) == Count(detect, tail', k2, ab) by {
        CountKnownOrderFree(detect, tail', k2, ba, ab);
      }
    }
  }

  /** The counter over every draw does not depend on the order of the deck. */
  lemma {:induction false} CountPermutation(detect: Detector, d1: seq<Card>, d2: seq<Card>, k: nat, known: seq<Card>)
    requires OrderFree(detect) && multiset(d1) == multiset(d2)
    ensures Count(detect, d1, k, known) == Count(detect, d2, k, known)
    decreases |d1|
  {
    if k != 0 && d1 != [] {
      var a, tail := d1[0], d1[1..];
      assert a in multiset(d2);
      var i := FirstIndex(d2, a);
      Counting.RemoveMatching(d1, d2, i);
      var del := Delete(d2, i);
      var k1: nat := k - 1;
      CountPull(detect, d2, k, k1, known, i);
      assert Count(detect, tail, k1, [a] + known) == Count(detect, del, k1, [a] + known) by {
        CountPermutation(detect, tail, del, k1, [a] + known);
      }
      assert Count(detect, tail, k, known) == Count(detect, del, k, known) by {
        CountPermutation(detect, tail, del, k, known);
      }
    } else if k != 0 {
      assert |d2| == |multiset(d1)| == 0;
    }
  }

  /** The counters over all draws do not depend on the order of the deck. */
  lemma HitsPermutation(detect: Detector, d1: seq<Card>, d2: seq<Card>, k: nat, known: seq<Card>)
    requires OrderFree(detect) && multiset(d1) == multiset(d2)
    ensures Hits(detect, Choose(d1, k), known) == Hits(detect, Choose(d2, k), known)
  {
    CountHits(detect, d1, k, known);
    CountHits(detect, d2, k, known);
    CountPermutation(detect, d1, d2, k, known);
  }

  /** Every counter, and the number of draws, depend only on the bag of remaining cards. */
  lemma TallyPermutation(r1: seq<Card>, r2: seq<Card>, draw: nat, known: seq<Card>)
    requires multiset(r1) == multiset(r2)
    ensures Tally(Choose(r1, draw), known) == Tally(Choose(r2, draw), known)
    ensures |Choose(r1, draw)| == |Choose(r2, draw)|
  {
    forall cat | cat in CATEGORIES
      ensures Hits(DetectorOf(cat), Choose(r1, draw), known) == Hits(DetectorOf(cat), Choose(r2, draw), known)
    {
      HitsPermutation(DetectorOf(cat), r1, r2, draw, known);
    }
    ChooseCount(r1, draw);
    ChooseCount(r2, draw);
  }

  lemma DrawOddsPermutation(r1: seq<Card>, r2: seq<Card>, draw: int, known: seq<Card>)
    requires multiset(r1) == multiset(r2)
    ensures DrawOdds(r1, draw, known) == DrawOdds(r2, draw, known)
  {
    if draw > 0 {
      TallyPermutation(r1, r2, draw, known);
    }
  }

  /** Finishing two removals that agree up to the order of what is left gives the same odds. */
  lemma FinishPermutation(x: Result<seq<Card>, Card>, y: Result<seq<Card>, Card>, hand: seq<Card>, flop: seq<Card>)
    requires x.Success? == y.Success?
    requires x.Failure? ==> x == y
    requires x.Success? ==> multiset(x.value) == multiset(y.value)
    ensures Finish(x, hand, flop) == Finish(y, hand, flop)
  {
    if x.Success? {
      DrawOddsPermutation(x.value, y.value, ToDraw(flop), hand + flop);
    }
  }

  /** The odds do not depend on the shuffle: only the bag of cards in the deck matters. */
  lemma OddsShuffleInvariant(hand: seq<Card>, flop: seq<Card>, d1: seq<Card>, d2: seq<Card>)
    requires multiset(d1) == multiset(d2)
    ensures OddsOf(hand, flop, d1) == OddsOf(hand, flop, d2)
  {
    RemoveAllOrderFree(d1, d2, hand + flop);
    FinishPermutation(RemoveAll(d1, hand + flop), RemoveAll(d2, hand + flop), hand, flop);
  }

  /**
   * The removal loop of getMyOdds, `for card in hand + flop: deck.remove(card)`,
   * stopping with the card whose removal raises ValueError.
   */
  method RemoveCards(deck: seq<Card>, cards: seq<Card>) returns (r: Result<seq<Card>, Card>)
    ensures r == RemoveAll(deck, cards)
  {
    var left, todo := deck, cards;
    while todo != []
      invariant RemoveAll(deck, cards) == RemoveAll(left, todo)
      decreases |todo|
    {
      RemoveAllStep(left, todo);
      match RemoveFirst(left, todo[0])
      case None =>
        return Failure(todo[0]);
      case Some(rest) =>
        left, todo := rest, todo[1..];
    }
    r := Success(left);
  }

  /** The counters after one more completed hand: each detector that accepts it adds one. */
  function Bump(counters: map<Category, nat>, detectors: Category -> Detector, cards: seq<Card>): map<Category, nat> {
    map c | c in counters :: counters[c] + (if detectors(c)(cards) then 1 else 0)
  }

  /** One more combination at the end adds one exactly when the detector accepts it. */
  lemma HitsSnoc(detect: Detector, combos: seq<seq<Card>>, last: seq<Card>, known: seq<Card>)
    ensures Hits(detect, combos + [last], known) == Hits(detect, combos, known) + (if detect(last + known) then 1 else 0)
  {
    var all := combos + [last];
    assert all[..|all| - 1] == combos && all[|all| - 1] == last;
  }

  /** Counting one more combination is bumping the counters with it. */
  lemma TallySnoc(detectors: Category -> Detector, combos: seq<seq<Card>>, last: seq<Card>, known: seq<Card>)
    ensures TallyWith(detectors, combos + [last], known) == Bump(TallyWith(detectors, combos, known), detectors, last + known)
  {
    var all, cards := combos + [last], last + known;
    forall c | c in CATEGORIES
      ensures Hits(detectors(c), all, known) == Hits(detectors(c), combos, known) + (if detectors(c)(cards) then 1 else 0)
    {
      HitsSnoc(detectors(c), combos, last, known);
    }
  }

  /** The same step at position i of the list of combinations. */
  lemma TallyStep(combos: seq<seq<Card>>, known: seq<Card>, i: nat)
    requires i < |combos|
    ensures Tally(combos[..i + 1], known) == Bump(Tally(combos[..i], known), DetectorOf, combos[i] + known)
  {
    assert combos[..i + 1] == combos[..i] + [combos[i]];
    TallySnoc(DetectorOf, combos[..i], combos[i], known);
  }

  /**
   * The inner loop of getMyOdds' counting: run every detector of the table
   * over one completed hand and add one to the counter of each that accepts it.
   */
  method AddHand(counters: map<Category, nat>, detectors: Category -> Detector, cards: seq<Card>)
    returns (result: map<Category, nat>)
    requires counters.Keys == set c | c in CATEGORIES
    ensures result == Bump(counters, detectors, cards)
  {
    result := counters;
    for j := 0 to |CATEGORIES|
      invariant result.Keys == counters.Keys
      invariant forall c :: c in result ==>
        result[c] == counters[c] + (if Position(c) < j && detectors(c)(cards) then 1 else 0)
    {
      var key := CATEGORIES[j];
      if detectors(key)(cards) {
        result := result[key := result[key] + 1];
      }
    }
  }

  /**
   * The counting loop of getMyOdds: every counter starts at zero, and each
   * drawn combination, completed with the known cards, bumps the counters.
   */
  method CountHands(combos: seq<seq<Card>>, known: seq<Card>) returns (result: map<Category, nat>)
    ensures result == Tally(combos, known)
  {
    result := map[];
    for j := 0 to |CATEGORIES|
      invariant result.Keys == set c | c in CATEGORIES[..j]
      invariant forall c :: c in result ==> result[c] == 0
    {
      result := result[CATEGORIES[j] := 0];
    }
    assert result == Tally(combos[..0], known);
    for i := 0 to |combos|
      invariant result == Tally(combos[..i], known)
    {
      TallyStep(combos, known, i);
      result := AddHand(result, DetectorOf, combos[i] + known);
    }
    assert combos[..|combos|] == combos;
  }

  /** getMyOdds once the known cards are out of the deck: draw the completions and count them. */
  method DrawAndCount(rest: seq<Card>, draw: int, known: seq<Card>) returns (r: Result<Odds, OddsError>)
    ensures r == DrawOdds(rest, draw, known)
  {
    if draw <= 0 {
      return Failure(NoCardsToDraw(draw));
    }
    var combos := PermuteDraw(rest, draw);
    var result := CountHands(combos, known);
    if |combos| == 0 {
      return Failure(NoCompletions);
    }
    r := Success(Odds(result, |combos|));
  }

  /** getMyOdds on a deck already built: take out the hand and the board, then draw and count. */
  method OddsFromDeck(hand: seq<Card>, flop: seq<Card>, deck: seq<Card>) returns (r: Result<Odds, OddsError>)
    ensures r == OddsOf(hand, flop, deck)
  {
    var removed := RemoveCards(deck, hand + flop);
    match removed
    case Failure(card) =>
      r := Failure(CardNotInDeck(card));
    case Success(rest) =>
      r := DrawAndCount(rest, ToDraw(flop), hand + flop);
    assert r == Finish(removed, hand, flop);
  }

  /**
   * getMyOdds: build and shuffle the deck, take out the hand and the board,
   * draw every completion of the board and count the hand categories. The
   * outcome is that of the unshuffled deck, whatever the shuffle.
   */
  method GetMyOdds(hand: seq<Card>, flop: seq<Card>, picks: seq<int>) returns (r: Result<Odds, OddsError>)
    requires IsShuffle(picks)
    ensures r == OddsOf(hand, flop, OrderedDeck())
  {
    var deck := MakeDeck(picks);
    r := OddsFromDeck(hand, flop, deck);
    OddsShuffleInvariant(hand, flop, deck, OrderedDeck());
  }

  /** The known cards can all be taken out of a full deck: real cards, none listed twice. */
  predicate Removable(known: seq<Card>) {
    (forall c :: c in known ==> IsCard(c)) && NoDuplicates(known)
  }

  lemma RemovableIff(known: seq<Card>, deck: seq<Card>)
    requires FullDeck(deck)
    ensures multiset(known) <= multiset(deck) <==> Removable(known)
  {
    NoDuplicatesCount(known);
    if multiset(known) <= multiset(deck) {
      forall c | c in known
        ensures IsCard(c)
      {
        assert multiset(deck)[c] >= multiset(known)[c] >= 1;
      }
    }
    if Removable(known) {
      forall c
        ensures multiset(known)[c] <= multiset(deck)[c]
      {
        if c !in known {
          assert multiset(known)[c] == 0;
        }
      }
    }
  }

  /**
   * From a full deck, the completions getMyOdds counts are pairwise different
   * sets of cards, and no completed hand holds a card twice.
   */
  lemma CompletionsDistinct(known: seq<Card>, deck: seq<Card>, draw: nat)
    requires FullDeck(deck) && RemoveAll(deck, known).Success?
    ensures var combos := Choose(RemoveAll(deck, known).value, draw);
      && DistinctDraws(combos)
      && forall i :: 0 <= i < |combos| ==> NoDuplicates(combos[i] + known)
  {
    var rest := RemoveAll(deck, known).value;
    var combos := Choose(rest, draw);
    assert multiset(rest) + multiset(known) == multiset(deck);
    NoDuplicatesCount(rest);
    ChooseDistinct(rest, draw);
    forall i | 0 <= i < |combos|
      ensures NoDuplicates(combos[i] + known)
    {
      var hand := combos[i] + known;
      ChooseShape(rest, draw, combos[i]);
      assert multiset(hand) <= multiset(deck);
      NoDuplicatesCount(hand);
    }
  }

  /** Two detectors that never accept the same completed hand share out the combinations. */
  lemma {:induction false} HitsExclusive(d1: Detector, d2: Detector, combos: seq<seq<Card>>, known: seq<Card>)
    requires forall i :: 0 <= i < |combos| ==> !(d1(combos[i] + known) && d2(combos[i] + known))
    ensures Hits(d1, combos, known) + Hits(d2, combos, known) <= |combos|
    decreases |combos|
  {
    if combos != [] {
      HitsExclusive(d1, d2, combos[..|combos| - 1], known);
    }
  }

  /** A single pair and any other category never hold together, so they share out the combinations. */
  lemma PairShare(combos: seq<seq<Card>>, known: seq<Card>, other: Category)
    requires other != Pair
    ensures Hits(DetectorOf(Pair), combos, known) + Hits(DetectorOf(other), combos, known) <= |combos|
  {
    forall i | 0 <= i < |combos|
      ensures !(DetectorOf(Pair)(combos[i] + known) && DetectorOf(other)(combos[i] + known))
    {
      if IsPair(combos[i] + known) {
        PairExcludes(combos[i] + known);
      }
    }
    HitsExclusive(DetectorOf(Pair), DetectorOf(other), combos, known);
  }

  /** When every completed hand has at most seven cards, two pair and triples or quads share out the combinations. */
  lemma TwoPairShare(combos: seq<seq<Card>>, known: seq<Card>, other: Category)
    requires other == Triple || other == Quad
    requires forall i :: 0 <= i < |combos| ==> |combos[i]| + |known| <= 7
    ensures Hits(DetectorOf(TwoPair), combos, known) + Hits(DetectorOf(other), combos, known) <= |combos|
  {
    forall i | 0 <= i < |combos|
      ensures !(DetectorOf(TwoPair)(combos[i] + known) && DetectorOf(other)(combos[i] + known))
    {
      SevenCards(combos[i] + known);
    }
    HitsExclusive(DetectorOf(TwoPair), DetectorOf(other), combos, known);
  }

  /**
   * A counter for every category, none above the total, and a single pair
   * never counted together with another category.
   */
  predicate CountersFit(odds: Odds) {
    && (forall c: Category :: c in odds.hits && odds.hits[c] <= odds.total)
    && odds.hits[Pair] + odds.hits[Triple] <= odds.total
    && odds.hits[Pair] + odds.hits[Quad] <= odds.total
    && odds.hits[Pair] + odds.hits[TwoPair] <= odds.total
  }

  /** Two pair never counted together with triples or quads. */
  predicate TwoPairFits(odds: Odds)
    requires forall c: Category :: c in odds.hits
  {
    && odds.hits[TwoPair] + odds.hits[Triple] <= odds.total
    && odds.hits[TwoPair] + odds.hits[Quad] <= odds.total
  }

  /** The counters over any list of combinations fit it. */
  lemma TallyBounds(combos: seq<seq<Card>>, known: seq<Card>)
    ensures CountersFit(Odds(Tally(combos, known), |combos|))
  {
    forall c: Category
      ensures c in CATEGORIES
    {
      assert CATEGORIES[Position(c)] == c;
    }
    PairShare(combos, known, Triple);
    PairShare(combos, known, Quad);
    PairShare(combos, known, TwoPair);
  }

  /** Once the known cards are out: C(|rest|, draw) completions, and counters that fit them. */
  lemma DrawOddsBounds(rest: seq<Card>, draw: int, known: seq<Card>)
    requires DrawOdds(rest, draw, known).Success?
    ensures draw > 0
    ensures DrawOdds(rest, draw, known).value.total == Binomial(|rest|, draw) > 0
    ensures CountersFit(DrawOdds(rest, draw, known).value)
  {
    ChooseCount(rest, draw);
    TallyBounds(Choose(rest, draw), known);
  }

  /**
   * With at most seven cards in every completed hand, two pair excludes
   * triples and quads.
   */
  lemma DrawOddsSevenCards(rest: seq<Card>, draw: int, known: seq<Card>)
    requires DrawOdds(rest, draw, known).Success? && draw + |known| <= 7
    ensures CountersFit(DrawOdds(rest, draw, known).value)
    ensures TwoPairFits(DrawOdds(rest, draw, known).value)
  {
    var combos := Choose(rest, draw);
    TallyBounds(combos, known);
    forall i | 0 <= i < |combos|
      ensures |combos[i]| + |known| <= 7
    {
      ChooseShape(rest, draw, combos[i]);
    }
    TwoPairShare(combos, known, Triple);
    TwoPairShare(combos, known, Quad);
  }

  /** When there are odds, they are those of what is left of the deck. */
  lemma SuccessRest(hand: seq<Card>, flop: seq<Card>, deck: seq<Card>)
    requires OddsOf(hand, flop, deck).Success?
    ensures RemoveAll(deck, hand + flop).Success?
    ensures OddsOf(hand, flop, deck) == DrawOdds(RemoveAll(deck, hand + flop).value, ToDraw(flop), hand + flop)
  {
    assert OddsOf(hand, flop, deck) == Finish(RemoveAll(deck, hand + flop), hand, flop);
  }

  /**
   * Which outcome getMyOdds has on a full deck: ValueError exactly when a
   * known card is not a real card or is listed twice; otherwise the failed
   * assertion in permuteDraw exactly when the board is already complete;
   * otherwise a division by zero exactly when the hand leaves fewer cards
   * than the board still needs; otherwise odds.
   */
  lemma OddsOutcome(hand: seq<Card>, flop: seq<Card>, deck: seq<Card>)
    requires FullDeck(deck)
    ensures var r := OddsOf(hand, flop, deck);
      && (r.Failure? && r.error.CardNotInDeck? <==> !Removable(hand + flop))
      && (r.Failure? && r.error.CardNotInDeck? ==> r.error.card in hand + flop)
      && (r == Failure(NoCardsToDraw(ToDraw(flop))) <==> Removable(hand + flop) && FLOP_SIZE <= |flop|)
      && (r == Failure(NoCompletions) <==>
            Removable(hand + flop) && |flop| < FLOP_SIZE && DECK_SIZE - FLOP_SIZE < |hand|)
      && (r.Success? <==> Removable(hand + flop) && |flop| < FLOP_SIZE && |hand| <= DECK_SIZE - FLOP_SIZE)
  {
    var known := hand + flop;
    RemovableIff(known, deck);
    var removed := RemoveAll(deck, known);
    assert OddsOf(hand, flop, deck) == Finish(removed, hand, flop);
    if removed.Success? && ToDraw(flop) > 0 {
      var draw: nat := ToDraw(flop);
      ChooseEmpty(removed.value, draw);
    }
  }

  /**
   * The odds getMyOdds prints, on a full deck: C(52 - |hand| - |flop|,
   * 5 - |flop|) completions and counters that fit them, and for a hand of at
   * most two cards two pair never counted with triples or quads.
   */
  lemma OddsBounds(hand: seq<Card>, flop: seq<Card>, deck: seq<Card>)
    requires FullDeck(deck) && OddsOf(hand, flop, deck).Success?
    ensures OddsOf(hand, flop, deck).value.total == Binomial(DECK_SIZE - |hand| - |flop|, ToDraw(flop)) > 0
    ensures CountersFit(OddsOf(hand, flop, deck).value)
    ensures |hand| <= 2 ==> TwoPairFits(OddsOf(hand, flop, deck).value)
  {
    assert |deck| == DECK_SIZE;
    OddsFit(hand, flop, deck);
  }

  /** On any deck, the counters of successful odds fit their total. */
  lemma OddsFit(hand: seq<Card>, flop: seq<Card>, deck: seq<Card>)
    requires OddsOf(hand, flop, deck).Success?
    ensures CountersFit(OddsOf(hand, flop, deck).value)
    ensures |hand| <= 2 ==> TwoPairFits(OddsOf(hand, flop, deck).value)
  {
    SuccessRest(hand, flop, deck);
    var known := hand + flop;
    var rest := RemoveAll(deck, known).value;
    var draw := ToDraw(flop);
    var odds := OddsOf(hand, flop, deck).value;
    assert odds == DrawOdds(rest, draw, known).value;
    DrawOddsBounds(rest, draw, known);
    if |hand| <= 2 {
      DrawOddsSevenCards(rest, draw, known);
    }
  }

  /**
   * The run of poker.py as a script: the ace of hearts and the king of
   * spades, with two of clubs, six of spades and three of spades on the
   * board, gives odds over C(47, 2) = 1081 completions, from any full deck
   * (OrderedDeckFull shows the unshuffled deck is one).
   */
  lemma ScriptRun(deck: seq<Card>)
    requires FullDeck(deck)
    ensures var r := OddsOf([Card(1, H), Card(13, S)], [Card(2, C), Card(6, S), Card(3, S)], deck);
      r.Success? && r.value.total == 1081
  {
    var hand, flop := [Card(1, H), Card(13, S)], [Card(2, C), Card(6, S), Card(3, S)];
    assert Removable(hand + flop);
    OddsOutcome(hand, flop, deck);
    OddsBounds(hand, flop, deck);
    BinomialTwo(47);
  }
}
