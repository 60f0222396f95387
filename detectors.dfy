/**
 * The four hand-category predicates of poker.py. Each one looks only at how
 * many rank groups have two, three or four members, that is at the multiset
 * of group sizes that getCount produces (Counting.Sizes).
 */
module Detectors {
  import opened Cards
  import opened Counting

  /** `count.count(n)`: how many rank groups of the cards have exactly n members. */
  function Groups(cards: seq<Card>, n: nat): (r: nat)
    ensures r == |RanksWith(GetValues(cards), n)|
  {
    SizesCount(GetValues(cards), n);
    Sizes(GetValues(cards))[n]
  }

  /** isPair: exactly one value occurs twice, and none three or four times. */
  predicate IsPair(cards: seq<Card>): (r: bool)
    ensures var vs := GetValues(cards);
      r <==> |RanksWith(vs, 2)| == 1 && RanksWith(vs, 3) == {} && RanksWith(vs, 4) == {}
  {
    Groups(cards, 2) == 1 && Groups(cards, 3) == 0 && Groups(cards, 4) == 0
  }

  /** isTriple: one or two values occur exactly three times. */
  predicate IsTriple(cards: seq<Card>): (r: bool)
    ensures r <==> 1 <= |RanksWith(GetValues(cards), 3)| <= 2
  {
    Groups(cards, 3) == 1 || Groups(cards, 3) == 2
  }

  /** isQuad: exactly one value occurs four times. */
  predicate IsQuad(cards: seq<Card>): (r: bool)
    ensures r <==> |RanksWith(GetValues(cards), 4)| == 1
  {
    Groups(cards, 4) == 1
  }

  /**
   * isTwoPair, with Python's precedence (`and` binds tighter than `or`):
   * two values occur twice and none three times, or three values occur twice.
   */
  predicate IsTwoPair(cards: seq<Card>): (r: bool)
    ensures var vs := GetValues(cards);
      r <==> (|RanksWith(vs, 2)| == 2 && RanksWith(vs, 3) == {}) || |RanksWith(vs, 2)| == 3
  {
    (Groups(cards, 2) == 2 && Groups(cards, 3) == 0) || Groups(cards, 2) == 3
  }

  /** The detectors see the cards as a bag: reordering them changes no verdict. */
  lemma DetectorsOrderFree(a: seq<Card>, b: seq<Card>)
    requires multiset(a) == multiset(b)
    ensures IsPair(a) == IsPair(b) && IsTriple(a) == IsTriple(b)
    ensures IsQuad(a) == IsQuad(b) && IsTwoPair(a) == IsTwoPair(b)
  {
    ValuesOrderFree(a, b);
    SizesOrderFree(GetValues(a), GetValues(b));
  }

  /** A single pair excludes every other category. */
  lemma PairExcludes(cards: seq<Card>)
    requires IsPair(cards)
    ensures !IsTriple(cards) && !IsQuad(cards) && !IsTwoPair(cards)
  {
  }

  /** When the only group of more than one card is a quad, only isQuad holds. */
  lemma QuadAlone(cards: seq<Card>)
    requires var vs := GetValues(cards);
      RanksWith(vs, 2) == {} && RanksWith(vs, 3) == {} && |RanksWith(vs, 4)| == 1
    ensures IsQuad(cards) && !IsPair(cards) && !IsTriple(cards) && !IsTwoPair(cards)
  {
  }

  /**
   * The groups of two, three and four cards hold no more cards than there
   * are: 2 * pairs + 3 * triples + 4 * quads <= |values|.
   */
  lemma {:induction false} GroupCards(values: seq<int>)
    ensures 2 * Sizes(values)[2] + 3 * Sizes(values)[3] + 4 * Sizes(values)[4] <= |values|
    decreases |values|
  {
    if values != [] {
      var w := Without(values, values[0]);
      WithoutLength(values, values[0]);
      GroupCards(w);
    }
  }

  /**
   * In a seven-card hand (two hole cards and a full five-card board) two
   * pair leaves no room for a triple or a quad.
   */
  lemma SevenCards(cards: seq<Card>)
    requires |cards| <= 7
    ensures IsTwoPair(cards) ==> !IsTriple(cards) && !IsQuad(cards)
  {
    GroupCards(GetValues(cards));
  }
}

/**
 * The expectations of poker.py's test class, one lemma per board: the tests
 * call each detector with the hand and the board as two arguments, and here
 * each detector is applied to the hand and the board together.
 */
module DetectorCases {
  import opened Cards
  import opened Counting
  import opened Detectors

  /** The hand every test uses: the ace of hearts and the king of spades. */
  const HAND: seq<Card> := [Card(1, H), Card(13, S)]

  lemma PairRanks()
    ensures var vs := [1, 13, 2, 6, 1, 5];
      |RanksWith(vs, 2)| == 1 && |RanksWith(vs, 3)| == 0 && |RanksWith(vs, 4)| == 0
  {
    var vs := [1, 13, 2, 6, 1, 5];
    assert multiset(vs)[1] == 2;
    assert multiset(vs)[13] == 1 && multiset(vs)[2] == 1 && multiset(vs)[6] == 1 && multiset(vs)[5] == 1;
    assert forall x :: x in vs ==> x in {1, 13, 2, 6, 5};
    assert RanksWith(vs, 2) == {1};
    assert RanksWith(vs, 3) == {};
    assert RanksWith(vs, 4) == {};
  }

  /** The board with a real pair. */
  lemma PairCase()
    ensures var cards := HAND + [Card(2, C), Card(6, S), Card(1, S), Card(5, D)];
      IsPair(cards) && !IsTriple(cards) && !IsQuad(cards) && !IsTwoPair(cards)
  {
    var cards := HAND + [Card(2, C), Card(6, S), Card(1, S), Card(5, D)];
    var vs := GetValues(cards);
    assert |RanksWith(vs, 2)| == 1 && |RanksWith(vs, 3)| == 0 && |RanksWith(vs, 4)| == 0 by {
      assert vs == [1, 13, 2, 6, 1, 5];
      PairRanks();
    }
  }

  lemma TripleRanks()
    ensures var vs := [1, 13, 1, 6, 1];
      |RanksWith(vs, 2)| == 0 && |RanksWith(vs, 3)| == 1 && |RanksWith(vs, 4)| == 0
  {
    var vs := [1, 13, 1, 6, 1];
    assert multiset(vs)[1] == 3 && multiset(vs)[13] == 1 && multiset(vs)[6] == 1;
    assert forall x :: x in vs ==> x in {1, 13, 6};
    assert RanksWith(vs, 2) == {};
    assert RanksWith(vs, 3) == {1};
    assert RanksWith(vs, 4) == {};
  }

  /** The board with triples. */
  lemma TripleCase()
    ensures var cards := HAND + [Card(1, C), Card(6, S), Card(1, S)];
      !IsPair(cards) && IsTriple(cards) && !IsQuad(cards) && !IsTwoPair(cards)
  {
    var cards := HAND + [Card(1, C), Card(6, S), Card(1, S)];
    var vs := GetValues(cards);
    assert |RanksWith(vs, 2)| == 0 && |RanksWith(vs, 3)| == 1 && |RanksWith(vs, 4)| == 0 by {
      assert vs == [1, 13, 1, 6, 1];
      TripleRanks();
    }
  }

  lemma QuadRanks()
    ensures var vs := [1, 13, 1, 6, 1, 1];
      |RanksWith(vs, 2)| == 0 && |RanksWith(vs, 3)| == 0 && |RanksWith(vs, 4)| == 1
  {
    var vs := [1, 13, 1, 6, 1, 1];
    assert multiset(vs)[1] == 4 && multiset(vs)[13] == 1 && multiset(vs)[6] == 1;
    assert forall x :: x in vs ==> x in {1, 13, 6};
    assert RanksWith(vs, 2) == {};
    assert RanksWith(vs, 3) == {};
    assert RanksWith(vs, 4) == {1};
  }

  /** The board with quads. */
  lemma QuadCase()
    ensures var cards := HAND + [Card(1, C), Card(6, S), Card(1, S), Card(1, D)];
      !IsPair(cards) && !IsTriple(cards) && IsQuad(cards) && !IsTwoPair(cards)
  {
    var cards := HAND + [Card(1, C), Card(6, S), Card(1, S), Card(1, D)];
    var vs := GetValues(cards);
    assert |RanksWith(vs, 2)| == 0 && |RanksWith(vs, 3)| == 0 && |RanksWith(vs, 4)| == 1 by {
      assert vs == [1, 13, 1, 6, 1, 1];
      QuadRanks();
    }
  }

  lemma TwoPairRanks()
    ensures var vs := [1, 13, 2, 6, 1, 5, 5];
      |RanksWith(vs, 2)| == 2 && |RanksWith(vs, 3)| == 0 && |RanksWith(vs, 4)| == 0
  {
    var vs := [1, 13, 2, 6, 1, 5, 5];
    assert multiset(vs)[1] == 2 && multiset(vs)[5] == 2;
    assert multiset(vs)[13] == 1 && multiset(vs)[2] == 1 && multiset(vs)[6] == 1;
    assert forall x :: x in vs ==> x in {1, 13, 2, 6, 5};
    assert RanksWith(vs, 2) == {1, 5};
    assert RanksWith(vs, 3) == {};
    assert RanksWith(vs, 4) == {};
  }

  /** The board with two pair. */
  lemma TwoPairCase()
    ensures var cards := HAND + [Card(2, C), Card(6, S), Card(1, S), Card(5, D), Card(5, H)];
      !IsPair(cards) && !IsTriple(cards) && !IsQuad(cards) && IsTwoPair(cards)
  {
    var cards := HAND + [Card(2, C), Card(6, S), Card(1, S), Card(5, D), Card(5, H)];
    var vs := GetValues(cards);
    assert |RanksWith(vs, 2)| == 2 && |RanksWith(vs, 3)| == 0 && |RanksWith(vs, 4)| == 0 by {
      assert vs == [1, 13, 2, 6, 1, 5, 5];
      TwoPairRanks();
    }
  }

  lemma HighRanks()
    ensures var vs := [1, 13, 2, 6, 3, 5];
      |RanksWith(vs, 2)| == 0 && |RanksWith(vs, 3)| == 0 && |RanksWith(vs, 4)| == 0
  {
    var vs := [1, 13, 2, 6, 3, 5];
    assert multiset(vs)[1] == 1 && multiset(vs)[13] == 1 && multiset(vs)[2] == 1;
    assert multiset(vs)[6] == 1 && multiset(vs)[3] == 1 && multiset(vs)[5] == 1;
    assert forall x :: x in vs ==> x in {1, 13, 2, 6, 3, 5};
    assert RanksWith(vs, 2) == {};
    assert RanksWith(vs, 3) == {};
    assert RanksWith(vs, 4) == {};
  }

  /** The board with card high. */
  lemma HighCase()
    ensures var cards := HAND + [Card(2, C), Card(6, S), Card(3, S), Card(5, D)];
      !IsPair(cards) && !IsTriple(cards) && !IsQuad(cards) && !IsTwoPair(cards)
  {
    var cards := HAND + [Card(2, C), Card(6, S), Card(3, S), Card(5, D)];
    var vs := GetValues(cards);
    assert |RanksWith(vs, 2)| == 0 && |RanksWith(vs, 3)| == 0 && |RanksWith(vs, 4)| == 0 by {
      assert vs == [1, 13, 2, 6, 3, 5];
      HighRanks();
    }
  }
}
