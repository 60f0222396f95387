/**
 * The deck of poker.py: a card is a (value, suit) pair, makeDeck builds one
 * card for every value in VALUES = range(1, 14) and every suit in SUITS, in
 * that nesting order, and shuffles the list; getMyOdds then takes the known
 * cards out of it one by one with list.remove.
 */
module Cards {
  import opened Outcomes

  datatype Suit = D | C | H | S

  /** A card as the tuples (value, suit) of the source; value 1 is the ace. */
  datatype Card = Card(value: int, suit: Suit)

  const SUITS: seq<Suit> := [D, C, H, S]
  const LOW_VALUE: int := 1
  const HIGH_VALUE: int := 13
  const DECK_SIZE: nat := 52

  /** A card makeDeck can produce. */
  predicate IsCard(c: Card) {
    LOW_VALUE <= c.value <= HIGH_VALUE
  }

  /** The cards of value v, one per suit, in the order of SUITS. */
  function SuitsOf(v: int): seq<Card> {
    [Card(v, D), Card(v, C), Card(v, H), Card(v, S)]
  }

  /** Each card of value v occurs once among SuitsOf(v). */
  lemma SuitsOfCounts(v: int, c: Card)
    ensures multiset(SuitsOf(v))[c] == if c.value == v then 1 else 0
  {
    assert multiset(SuitsOf(v)) == multiset{Card(v, D), Card(v, C), Card(v, H), Card(v, S)};
    match c.suit
    case D =>
    case C =>
    case H =>
    case S =>
  }

  /** The cards of values 1..v-1, in the order makeDeck appends them. */
  function CardsBelow(v: int): seq<Card>
    decreases v
  {
    if v <= 1 then [] else CardsBelow(v - 1) + SuitsOf(v - 1)
  }

  /** The deck before it is shuffled. */
  function OrderedDeck(): seq<Card> {
    CardsBelow(HIGH_VALUE + 1)
  }

  /** Four cards per value. */
  lemma {:induction false} CardsBelowLength(v: int)
    requires 1 <= v
    ensures |CardsBelow(v)| == 4 * (v - 1)
    decreases v
  {
    if v > 1 {
      CardsBelowLength(v - 1);
    }
  }

  /** Among the cards of values 1..v-1 every such card occurs once, and no other. */
  lemma {:induction false} CardsBelowCount(v: int, c: Card)
    requires 1 <= v
    ensures multiset(CardsBelow(v))[c] == if 1 <= c.value < v then 1 else 0
    decreases v
  {
    if v > 1 {
      CardsBelowCount(v - 1, c);
      SuitsOfCounts(v - 1, c);
      assert multiset(CardsBelow(v)) == multiset(CardsBelow(v - 1)) + multiset(SuitsOf(v - 1));
    }
  }

  /** A deck that holds each of the 52 cards exactly once, in any order. */
  ghost predicate FullDeck(deck: seq<Card>) {
    && |deck| == DECK_SIZE
    && forall c :: multiset(deck)[c] == if IsCard(c) then 1 else 0
  }

  /** The unshuffled deck is full, and has 52 cards. */
  lemma OrderedDeckFull()
    ensures FullDeck(OrderedDeck())
  {
    CardsBelowLength(HIGH_VALUE + 1);
    forall c ensures multiset(OrderedDeck())[c] == if IsCard(c) then 1 else 0 {
      CardsBelowCount(HIGH_VALUE + 1, c);
    }
  }

  /**
   * The random choices `shuffle` makes on a 52-card list: for i from 51 down
   * to 1 it swaps the entries at i and j, j drawn from 0..i; picks[t] is the
   * j of step t.
   */
  predicate IsShuffle(picks: seq<int>) {
    && |picks| == DECK_SIZE - 1
    && forall t :: 0 <= t < |picks| ==> 0 <= picks[t] <= DECK_SIZE - 1 - t
  }

  /**
   * random.shuffle on a list of n cards: for i from n - 1 down to 1 it swaps
   * the entries at i and j, j drawn from 0..i; picks[t] is the j of step t.
   * The result holds the same cards.
   */
  method Shuffle(deck: seq<Card>, picks: seq<int>) returns (shuffled: seq<Card>)
    requires |picks| == |deck| - 1
    requires forall t :: 0 <= t < |picks| ==> 0 <= picks[t] <= |deck| - 1 - t
    ensures |shuffled| == |deck|
    ensures multiset(shuffled) == multiset(deck)
  {
    shuffled := deck;
    var i := |deck| - 1;
    while i > 0
      invariant 0 <= i < |deck|
      invariant |shuffled| == |deck|
      invariant multiset(shuffled) == multiset(deck)
    {
      var j := picks[|deck| - 1 - i];
      shuffled := Swap(shuffled, i, j);
      i := i - 1;
    }
  }

  /** x[i], x[j] = x[j], x[i] */
  function Swap(s: seq<Card>, i: nat, j: nat): (r: seq<Card>)
    requires i < |s| && j < |s|
    ensures |r| == |s| && r[i] == s[j] && r[j] == s[i]
    ensures forall k :: 0 <= k < |s| && k != i && k != j ==> r[k] == s[k]
    ensures multiset(r) == multiset(s)
  {
    if i == j then s
    else
      var r := s[i := s[j]][j := s[i]];
      assert multiset(s[i := s[j]]) == multiset(s) - multiset{s[i]} + multiset{s[j]};
      r
  }

  /**
   * makeDeck: appends (value, suit) for every value and suit, then shuffles
   * the list with the given random choices. Whatever the choices, the deck
   * holds exactly one of each of the 52 cards.
   */
  method MakeDeck(picks: seq<int>) returns (deck: seq<Card>)
    requires IsShuffle(picks)
    ensures multiset(deck) == multiset(OrderedDeck())
    ensures FullDeck(deck)
  {
    deck := [];
    for value := LOW_VALUE to HIGH_VALUE + 1
      invariant deck == CardsBelow(value)
    {
      for s := 0 to |SUITS|
        invariant deck == CardsBelow(value) + SuitsOf(value)[..s]
      {
        assert SuitsOf(value)[..s + 1] == SuitsOf(value)[..s] + [Card(value, SUITS[s])];
        deck := deck + [Card(value, SUITS[s])];
      }
      assert SuitsOf(value)[..|SUITS|] == SuitsOf(value);
    }
    OrderedDeckFull();
    deck := Shuffle(deck, picks);
  }

  /** The first position of card in deck. */
  function FirstIndex(deck: seq<Card>, card: Card): (i: nat)
    requires card in deck
    ensures i < |deck| && deck[i] == card && card !in deck[..i]
  {
    if deck[0] == card then 0 else 1 + FirstIndex(deck[1..], card)
  }

  /**
   * list.remove: takes out the first occurrence of card, keeping the order of
   * the others; None stands for the ValueError raised when card is absent.
   */
  function RemoveFirst(deck: seq<Card>, card: Card): (r: Option<seq<Card>>)
    ensures r.None? <==> card !in deck
    ensures r.Some? ==> |r.value| == |deck| - 1
    ensures r.Some? ==> multiset(r.value) == multiset(deck) - multiset{card}
    ensures r.Some? ==> exists i :: 0 <= i < |deck| && deck[i] == card && card !in deck[..i]
                                  && r.value == deck[..i] + deck[i + 1..]
  {
    if card in deck then
      var i := FirstIndex(deck, card);
      assert deck == deck[..i] + [card] + deck[i + 1..];
      assert deck[i] == card && card !in deck[..i];
      Some(deck[..i] + deck[i + 1..])
    else None
  }

  /** One element of a bag fits into m when the rest fits into what is left of m after it. */
  lemma SubBagStep<T>(x: T, rest: multiset<T>, m: multiset<T>)
    requires x in m
    ensures multiset{x} + rest <= m <==> rest <= m - multiset{x}
  {
    if rest <= m - multiset{x} {
      forall y ensures (multiset{x} + rest)[y] <= m[y] {
        assert rest[y] <= (m - multiset{x})[y];
      }
    }
  }

  /**
   * The removal loop of getMyOdds: `for card in cards: deck.remove(card)`.
   * It fails at the first card that is no longer in the deck, so it succeeds
   * exactly when the cards, duplicates counted, are all in the deck.
   */
  function RemoveAll(deck: seq<Card>, cards: seq<Card>): (r: Result<seq<Card>, Card>)
    ensures r.Success? <==> multiset(cards) <= multiset(deck)
    ensures r.Success? ==> multiset(r.value) == multiset(deck) - multiset(cards)
    ensures r.Success? ==> |r.value| == |deck| - |cards|
    ensures r.Failure? ==> r.error in cards
    decreases |cards|
  {
    if cards == [] then Success(deck)
    else
      assert multiset(cards) == multiset{cards[0]} + multiset(cards[1..]) by {
        assert cards == [cards[0]] + cards[1..];
      }
      match RemoveFirst(deck, cards[0])
      case None =>
        assert multiset(cards)[cards[0]] > multiset(deck)[cards[0]];
        Failure(cards[0])
      case Some(rest) =>
        var r := RemoveAll(rest, cards[1..]);
        SubBagStep(cards[0], multiset(cards[1..]), multiset(deck));
        assert r.Success? ==> |multiset(cards)| <= |multiset(deck)|;
        r
  }

  /** One step of the removal loop: take out the first card, then the others from what is left. */
  lemma RemoveAllStep(deck: seq<Card>, cards: seq<Card>)
    requires cards != []
    ensures RemoveFirst(deck, cards[0]).None? ==> RemoveAll(deck, cards) == Failure(cards[0])
    ensures RemoveFirst(deck, cards[0]).Some? ==>
              RemoveAll(deck, cards) == RemoveAll(RemoveFirst(deck, cards[0]).value, cards[1..])
  {
  }

  /** Removing the same cards from two orderings of one deck leaves two orderings of one rest. */
  lemma {:induction false} RemoveAllOrderFree(d1: seq<Card>, d2: seq<Card>, cards: seq<Card>)
    requires multiset(d1) == multiset(d2)
    ensures RemoveAll(d1, cards).Success? == RemoveAll(d2, cards).Success?
    ensures RemoveAll(d1, cards).Failure? ==> RemoveAll(d1, cards) == RemoveAll(d2, cards)
    ensures RemoveAll(d1, cards).Success? ==>
              multiset(RemoveAll(d1, cards).value) == multiset(RemoveAll(d2, cards).value)
  {
    if cards != [] {
      var c := cards[0];
      assert c in d1 <==> c in d2 by {
        assert c in d1 <==> multiset(d1)[c] > 0;
        assert c in d2 <==> multiset(d2)[c] > 0;
      }
      if c in d1 {
        RemoveAllOrderFree(RemoveFirst(d1, c).value, RemoveFirst(d2, c).value, cards[1..]);
      }
    }
  }
}
