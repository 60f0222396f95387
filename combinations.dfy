/**
 * permuteDraw of poker.py: every way of drawing `draw` cards from what is
 * left of the deck. Choose is the reference definition; PermuteDraw is the
 * source's recursive procedure with its early exit, proved to return exactly
 * Choose.
 */
module Combinations {

  /** The binomial coefficient by Pascal's rule. */
  function Binomial(n: nat, k: nat): nat {
    if k == 0 then 1
    else if n == 0 then 0
    else Binomial(n - 1, k - 1) + Binomial(n - 1, k)
  }

  /** There is no way to draw more cards than there are, and at least one way otherwise. */
  lemma {:induction false} BinomialZero(n: nat, k: nat)
    ensures Binomial(n, k) == 0 <==> n < k
  {
    if k != 0 && n != 0 {
      BinomialZero(n - 1, k - 1);
      BinomialZero(n - 1, k);
    }
  }

  lemma {:induction false} BinomialOne(n: nat)
    ensures Binomial(n, 1) == n
  {
    if n != 0 {
      BinomialOne(n - 1);
    }
  }

  /** n * (n - 1) / 2 ways to draw two cards. */
  lemma {:induction false} BinomialTwo(n: nat)
    ensures 2 * Binomial(n, 2) == n * (n - 1)
  {
    if n != 0 {
      BinomialTwo(n - 1);
      BinomialOne(n - 1);
    }
  }

  /** Each combination with x put at its end (`entry.append(x)`). */
  function Extend<T>(combos: seq<seq<T>>, x: T): (r: seq<seq<T>>)
    ensures |r| == |combos|
  {
    seq(|combos|, i requires 0 <= i < |combos| => combos[i] + [x])
  }

  lemma ExtendAppend<T>(a: seq<seq<T>>, b: seq<seq<T>>, x: T)
    ensures Extend(a + b, x) == Extend(a, x) + Extend(b, x)
  {
  }

  /** c is in Extend(combos, x) exactly when it ends in x after a member of combos. */
  lemma ExtendMembers<T>(combos: seq<seq<T>>, x: T, c: seq<T>)
    ensures c in Extend(combos, x) <==> c != [] && c[|c| - 1] == x && c[..|c| - 1] in combos
  {
    if c in Extend(combos, x) {
      var i :| 0 <= i < |combos| && Extend(combos, x)[i] == c;
      assert c[..|c| - 1] == combos[i];
    }
    if c != [] && c[|c| - 1] == x && c[..|c| - 1] in combos {
      var i :| 0 <= i < |combos| && combos[i] == c[..|c| - 1];
      assert Extend(combos, x)[i] == c;
    }
  }

  /**
   * The k-card draws from deck, each listing its cards from the latest deck
   * position to the earliest: first those using deck[0], then the others.
   */
  function Choose<T>(deck: seq<T>, k: nat): seq<seq<T>>
    decreases |deck|
  {
    if k == 0 then [[]]
    else if deck == [] then []
    else Extend(Choose(deck[1..], k - 1), deck[0]) + Choose(deck[1..], k)
  }

  /**
   * c is drawn from deck: its cards sit at distinct positions of deck, and
   * read from the back of c those positions increase.
   */
  predicate Drawn<T(==)>(c: seq<T>, deck: seq<T>)
    decreases |deck|
  {
    c == [] ||
    (deck != [] &&
     ((c[|c| - 1] == deck[0] && Drawn(c[..|c| - 1], deck[1..])) || Drawn(c, deck[1..])))
  }

  /** Choose produces C(|deck|, k) combinations. */
  lemma {:induction false} ChooseCount<T>(deck: seq<T>, k: nat)
    ensures |Choose(deck, k)| == Binomial(|deck|, k)
    decreases |deck|
  {
    if k != 0 && deck != [] {
      ChooseCount(deck[1..], k - 1);
      ChooseCount(deck[1..], k);
    }
  }

  /** No combination at all exactly when the deck is too short. */
  lemma ChooseEmpty<T>(deck: seq<T>, k: nat)
    ensures Choose(deck, k) == [] <==> |deck| < k
  {
    ChooseCount(deck, k);
    BinomialZero(|deck|, k);
  }

  /** The combinations are exactly the k-card draws from deck. */
  lemma {:induction false} ChooseMembers<T>(deck: seq<T>, k: nat, c: seq<T>)
    ensures c in Choose(deck, k) <==> |c| == k && Drawn(c, deck)
    decreases |deck|
  {
    if k != 0 && deck != [] {
      var x, tail, k1: nat := deck[0], deck[1..], k - 1;
      assert Choose(deck, k) == Extend(Choose(tail, k1), x) + Choose(tail, k);
      if c != [] {
        var init := c[..|c| - 1];
        ChooseMembers(tail, k1, init);
      }
      ChooseMembers(tail, k, c);
      ExtendMembers(Choose(tail, k1), x, c);
    } else if k != 0 {
      assert c in Choose(deck, k) <==> false;
    }
  }

  /** A draw takes every card of it from the deck. */
  lemma {:induction false} DrawnFromDeck<T>(c: seq<T>, deck: seq<T>)
    requires Drawn(c, deck)
    ensures multiset(c) <= multiset(deck)
    decreases |deck|
  {
    if c != [] {
      var tail := deck[1..];
      assert deck == [deck[0]] + tail;
      if c[|c| - 1] == deck[0] && Drawn(c[..|c| - 1], tail) {
        DrawnFromDeck(c[..|c| - 1], tail);
        assert c == c[..|c| - 1] + [deck[0]];
      } else {
        DrawnFromDeck(c, tail);
      }
    }
  }

  predicate NoDuplicates<T(==)>(s: seq<T>) {
    forall i, j :: 0 <= i < j < |s| ==> s[i] != s[j]
  }

  /** A sequence repeats nothing exactly when it holds each element at most once. */
  lemma {:induction false} NoDuplicatesCount<T>(s: seq<T>)
    ensures NoDuplicates(s) <==> forall x :: multiset(s)[x] <= 1
  {
    if s != [] {
      var t := s[1..];
      assert s == [s[0]] + t;
      NoDuplicatesCount(t);
      if NoDuplicates(s) {
        assert NoDuplicates(t) by {
          forall i, j | 0 <= i < j < |t| ensures t[i] != t[j] {
            assert s[i + 1] != s[j + 1];
          }
        }
        assert s[0] !in t by {
          forall j | 0 <= j < |t| ensures t[j] != s[0] {
            assert s[j + 1] != s[0];
          }
        }
      }
      if forall x :: multiset(s)[x] <= 1 {
        assert forall x :: multiset(t)[x] <= 1 by {
          forall x ensures multiset(t)[x] <= 1 {
            assert multiset(s)[x] == multiset(t)[x] + (if x == s[0] then 1 else 0);
          }
        }
        assert s[0] !in t by {
          assert multiset(s)[s[0]] == multiset(t)[s[0]] + 1;
        }
        forall i, j | 0 <= i < j < |s| ensures s[i] != s[j] {
          if i == 0 {
            assert s[j] == t[j - 1];
          } else {
            assert s[i] == t[i - 1] && s[j] == t[j - 1];
          }
        }
      }
    }
  }

  /** Each combination has k cards, all taken from the deck. */
  lemma ChooseShape<T>(deck: seq<T>, k: nat, c: seq<T>)
    requires c in Choose(deck, k)
    ensures |c| == k && multiset(c) <= multiset(deck)
  {
    ChooseMembers(deck, k, c);
    DrawnFromDeck(c, deck);
  }

  /** No two combinations hold the same cards. */
  predicate DistinctDraws<T(==)>(cs: seq<seq<T>>) {
    forall i, j :: 0 <= i < j < |cs| ==> multiset(cs[i]) != multiset(cs[j])
  }

  /** Putting the same card at the end of every combination keeps them apart. */
  lemma ExtendDistinct<T>(combos: seq<seq<T>>, x: T)
    requires DistinctDraws(combos)
    ensures DistinctDraws(Extend(combos, x))
  {
    var ext := Extend(combos, x);
    forall i, j | 0 <= i < j < |ext|
      ensures multiset(ext[i]) != multiset(ext[j])
    {
      assert multiset(combos[i]) == multiset(ext[i]) - multiset{x};
      assert multiset(combos[j]) == multiset(ext[j]) - multiset{x};
    }
  }

  /** Two lists of distinct combinations, where x is in every one of the first and in none of the second. */
  lemma ConcatDistinct<T>(a: seq<seq<T>>, b: seq<seq<T>>, x: T)
    requires DistinctDraws(a) && DistinctDraws(b)
    requires forall c :: c in a ==> x in multiset(c)
    requires forall d :: d in b ==> x !in multiset(d)
    ensures DistinctDraws(a + b)
  {
    var cs := a + b;
    forall i, j | 0 <= i < j < |cs|
      ensures multiset(cs[i]) != multiset(cs[j])
    {
      if j < |a| {
        assert cs[i] == a[i] && cs[j] == a[j];
      } else if i < |a| {
        assert cs[i] in a && cs[j] in b;
      } else {
        assert cs[i] == b[i - |a|] && cs[j] == b[j - |a|];
      }
    }
  }

  /** From a deck that holds no card twice, no two combinations hold the same cards. */
  lemma {:induction false} ChooseDistinct<T>(deck: seq<T>, k: nat)
    requires NoDuplicates(deck)
    ensures DistinctDraws(Choose(deck, k))
    decreases |deck|
  {
    if k != 0 && deck != [] {
      var x, tail := deck[0], deck[1..];
      var with, without := Choose(tail, k - 1), Choose(tail, k);
      ChooseDistinct(tail, k - 1);
      ChooseDistinct(tail, k);
      ExtendDistinct(with, x);
      assert x !in multiset(tail) by {
        assert x !in tail;
      }
      forall c | c in Extend(with, x)
        ensures x in multiset(c)
      {
        ExtendMembers(with, x, c);
        assert c == c[..|c| - 1] + [x];
      }
      forall d | d in without
        ensures x !in multiset(d)
      {
        ChooseShape(tail, k, d);
      }
      ConcatDistinct(Extend(with, x), without, x);
    }
  }

  /**
   * The draws from the cards from position i on: those that start with card
   * i, then those from the cards after it.
   */
  lemma ChooseFrom<T>(deck: seq<T>, k: nat, k1: nat, i: nat, j: nat)
    requires k == k1 + 1 && j == i + 1 && i < |deck|
    ensures Choose(deck[i..], k) == Extend(Choose(deck[j..], k1), deck[i]) + Choose(deck[j..], k)
  {
    assert deck[i..][1..] == deck[j..];
  }

  /**
   * One pass of permuteDraw's loop: result held the draws starting before
   * card i; adding those that start with card i leaves the draws from the
   * cards after it still to come.
   */
  lemma DrawsThrough<T>(deck: seq<T>, k: nat, k1: nat, i: nat, after: seq<T>, before: seq<seq<T>>, result: seq<seq<T>>)
    requires k == k1 + 1 && i < |deck| && after == deck[i + 1..]
    requires before + Choose(deck[i..], k) == Choose(deck, k)
    requires result == before + Extend(Choose(after, k1), deck[i])
    ensures result + Choose(after, k) == Choose(deck, k)
  {
    ChooseFrom(deck, k, k1, i, i + 1);
    Regroup(before, Extend(Choose(after, k1), deck[i]), Choose(after, k));
  }

  /** Concatenation regroups; a lemma of its own so the step above is taken in a small context. */
  lemma Regroup<U>(a: seq<U>, b: seq<U>, c: seq<U>)
    ensures a + b + c == a + (b + c)
  {
  }

  /** When nothing can be drawn after card i, nothing can be drawn from card i on. */
  lemma NoDrawsFrom<T>(deck: seq<T>, k: nat, k1: nat, i: nat, after: seq<T>)
    requires k == k1 + 1 && i < |deck| && after == deck[i + 1..]
    requires Choose(after, k1) == []
    ensures Choose(deck[i..], k) == []
  {
    ChooseEmpty(after, k1);
    ChooseEmpty(deck[i..], k);
  }

  /** The inner loop of permuteDraw: every entry of next, with card put at its end, appended to result. */
  method AppendEach<T>(result: seq<seq<T>>, next: seq<seq<T>>, card: T) returns (r: seq<seq<T>>)
    ensures r == result + Extend(next, card)
  {
    r := result;
    for j := 0 to |next|
      invariant r == result + Extend(next[..j], card)
    {
      ExtendAppend(next[..j], [next[j]], card);
      assert next[..j + 1] == next[..j] + [next[j]];
      r := r + [next[j] + [card]];
    }
    assert next[..|next|] == next;
  }

  /** The draw == 1 case of permuteDraw: one single-card draw per card, in deck order. */
  method SingleCards<T>(deck: seq<T>) returns (result: seq<seq<T>>)
    ensures result == Choose(deck, 1)
  {
    result := [];
    for i := 0 to |deck|
      invariant result + Choose(deck[i..], 1) == Choose(deck, 1)
    {
      ChooseFrom(deck, 1, 0, i, i + 1);
      assert Extend(Choose(deck[i + 1..], 0), deck[i]) == [[deck[i]]] by {
        assert Extend([[]], deck[i])[0] == [deck[i]];
      }
      result := result + [[deck[i]]];
    }
  }

  /**
   * permuteDraw: for draw == 1 one combination per card; otherwise nothing
   * when the deck is too short, else, for each card in turn, the draws of
   * draw - 1 cards after it, each with the card put at its end, stopping at
   * the first card after which nothing can be drawn.
   */
  method PermuteDraw<T>(deck: seq<T>, draw: int) returns (result: seq<seq<T>>)
    requires draw > 0
    ensures result == Choose(deck, draw)
    decreases draw
  {
    if draw == 1 {
      result := SingleCards(deck);
      return;
    }

    if |deck| < draw {
      ChooseEmpty(deck, draw);
      return [];
    }

    result := [];
    var ii := 0;
    var fewer: nat := draw - 1;
    while ii < |deck|
      invariant 0 <= ii <= |deck|
      invariant result + Choose(deck[ii..], draw) == Choose(deck, draw)
    {
      var after := deck[ii + 1..];
      var next := PermuteDraw(after, fewer);
      if |next| == 0 {
        // No card after deck[ii] can start a draw either.
        NoDrawsFrom(deck, draw, fewer, ii, after);
        assert result == Choose(deck, draw);
        break;
      }
      var before := result;
      result := AppendEach(result, next, deck[ii]);
      DrawsThrough(deck, draw, fewer, ii, after, before, result);
      ii := ii + 1;
      assert deck[ii..] == after;
    }
    if ii == |deck| {
      assert deck[ii..] == [];
    }
  }
}
