/**
 * Rank-frequency reduction of poker.py: getValues strips the suits and
 * getCount turns the values into the list of group sizes, one entry per
 * distinct value holding how many cards carry it. Only the group sizes, as a
 * bag, matter to the detectors, so the specification works with a multiset.
 */
module Counting {
  import opened Cards

  /** getValues: the value of each card, in order. */
  function GetValues(cards: seq<Card>): (r: seq<int>)
    ensures |r| == |cards| && forall i {:trigger r[i], cards[i]} :: 0 <= i < |cards| ==> r[i] == cards[i].value
  {
    seq(|cards|, i requires 0 <= i < |cards| => cards[i].value)
  }

  lemma ValuesAppend(a: seq<Card>, b: seq<Card>)
    ensures GetValues(a + b) == GetValues(a) + GetValues(b)
  {
  }

  /** The values of a with position i taken out: one occurrence of a[i].value fewer. */
  lemma ValuesRemoveAt(a: seq<Card>, i: nat)
    requires i < |a|
    ensures multiset(GetValues(a)) == multiset{a[i].value} + multiset(GetValues(a[..i] + a[i + 1..]))
  {
    assert a == a[..i] + [a[i]] + a[i + 1..];
    ValuesAppend(a[..i] + [a[i]], a[i + 1..]);
    ValuesAppend(a[..i], [a[i]]);
    ValuesAppend(a[..i], a[i + 1..]);
  }

  /** Dropping position i of a list drops one occurrence of its element. */
  lemma RemoveAtMultiset<T>(s: seq<T>, i: nat)
    requires i < |s|
    ensures multiset(s[..i] + s[i + 1..]) == multiset(s) - multiset{s[i]}
  {
    assert s == s[..i] + [s[i]] + s[i + 1..];
  }

  /** Taking the same element out of two permutations leaves two permutations. */
  lemma RemoveMatching<T>(a: seq<T>, b: seq<T>, i: nat)
    requires multiset(a) == multiset(b) && a != []
    requires i < |b| && b[i] == a[0]
    ensures multiset(a[1..]) == multiset(b[..i] + b[i + 1..])
  {
    RemoveAtMultiset(a, 0);
    assert a[..0] + a[1..] == a[1..];
    RemoveAtMultiset(b, i);
  }

  /** Reordering the cards reorders their values and nothing more. */
  lemma {:induction false} ValuesOrderFree(a: seq<Card>, b: seq<Card>)
    requires multiset(a) == multiset(b)
    ensures multiset(GetValues(a)) == multiset(GetValues(b))
    decreases |a|
  {
    if a != [] {
      var x := a[0];
      assert x in multiset(b);
      var i :| 0 <= i < |b| && b[i] == x;
      var a', b' := a[1..], b[..i] + b[i + 1..];
      var va, vb := multiset(GetValues(a')), multiset(GetValues(b'));
      assert va == vb by {
        RemoveMatching(a, b, i);
        ValuesOrderFree(a', b');
      }
      assert multiset(GetValues(a)) == multiset{x.value} + va by {
        ValuesRemoveAt(a, 0);
        assert a[..0] + a[1..] == a';
      }
      assert multiset(GetValues(b)) == multiset{x.value} + vb by {
        ValuesRemoveAt(b, i);
      }
    }
  }

  /** The values with every occurrence of v taken out. */
  function Without(values: seq<int>, v: int): (r: seq<int>)
    ensures |r| <= |values|
  {
    if values == [] then []
    else if values[0] == v then Without(values[1..], v)
    else [values[0]] + Without(values[1..], v)
  }

  /** Exactly the occurrences of v are gone. */
  lemma {:induction false} WithoutLength(values: seq<int>, v: int)
    ensures |Without(values, v)| == |values| - multiset(values)[v]
  {
    if values != [] {
      assert values == [values[0]] + values[1..];
      WithoutLength(values[1..], v);
    }
  }

  /** Without(values, v) keeps every other value as often as before. */
  lemma {:induction false} WithoutCount(values: seq<int>, v: int, x: int)
    ensures multiset(Without(values, v))[x] == if x == v then 0 else multiset(values)[x]
  {
    if values != [] {
      assert values == [values[0]] + values[1..];
      WithoutCount(values[1..], v, x);
      if values[0] != v {
        assert Without(values, v) == [values[0]] + Without(values[1..], v);
      }
    }
  }

  lemma {:induction false} WithoutCommutes(values: seq<int>, a: int, b: int)
    ensures Without(Without(values, a), b) == Without(Without(values, b), a)
  {
    if values != [] {
      WithoutCommutes(values[1..], a, b);
      var x := values[0];
      var rest := values[1..];
      if x != a && x != b {
        assert Without(values, a) == [x] + Without(rest, a);
        assert Without(values, b) == [x] + Without(rest, b);
        assert ([x] + Without(rest, a))[1..] == Without(rest, a);
        assert ([x] + Without(rest, b))[1..] == Without(rest, b);
      } else if x == a && x != b {
        assert Without(values, b) == [x] + Without(rest, b);
        assert ([x] + Without(rest, b))[1..] == Without(rest, b);
      } else if x == b && x != a {
        assert Without(values, a) == [x] + Without(rest, a);
        assert ([x] + Without(rest, a))[1..] == Without(rest, a);
      }
    }
  }

  /**
   * The group sizes of a list of values: for every distinct value, how many
   * times it occurs. Every group has at least one member.
   */
  function Sizes(values: seq<int>): multiset<nat>
    decreases |values|
  {
    if values == [] then multiset{}
    else multiset{multiset(values)[values[0]]} + Sizes(Without(values, values[0]))
  }

  /** Taking out a value other than the first leaves the first value's group first. */
  lemma SizesOther(values: seq<int>, v: int)
    requires values != [] && v != values[0]
    ensures var a := values[0];
      Sizes(Without(values, v)) == multiset{multiset(values)[a]} + Sizes(Without(Without(values, a), v))
  {
    var a := values[0];
    var wv := Without(values, v);
    assert wv == [a] + Without(values[1..], v) by {
      assert values == [a] + values[1..];
    }
    WithoutCount(values, v, a);
    WithoutCommutes(values, a, v);
  }

  /** Any value present can be taken as the first group. */
  lemma {:induction false} SizesPull(values: seq<int>, v: int)
    requires v in values
    ensures Sizes(values) == multiset{multiset(values)[v]} + Sizes(Without(values, v))
    decreases |values|
  {
    var a := values[0];
    if v != a {
      var wa := Without(values, a);
      var rest := Without(wa, v);
      var ma, mv := multiset(values)[a], multiset(values)[v];
      assert Sizes(values) == multiset{ma} + Sizes(wa);
      assert Sizes(wa) == multiset{mv} + Sizes(rest) by {
        WithoutCount(values, a, v);
        SizesPull(wa, v);
      }
      SizesOther(values, v);
    }
  }

  /** The group sizes depend only on the bag of values, not on their order. */
  lemma {:induction false} SizesOrderFree(a: seq<int>, b: seq<int>)
    requires multiset(a) == multiset(b)
    ensures Sizes(a) == Sizes(b)
    decreases |a|
  {
    if a != [] {
      var x := a[0];
      assert x in multiset(b);
      SizesPull(b, x);
      forall y ensures multiset(Without(a, x))[y] == multiset(Without(b, x))[y] {
        WithoutCount(a, x, y);
        WithoutCount(b, x, y);
      }
      assert multiset(Without(a, x)) == multiset(Without(b, x));
      SizesOrderFree(Without(a, x), Without(b, x));
    }
  }

  /** The distinct values that occur exactly n times. */
  function RanksWith(values: seq<int>, n: nat): set<int> {
    set v | v in values && multiset(values)[v] == n
  }

  /** The values occurring n times, split into the first value and the rest. */
  lemma RanksFirst(values: seq<int>, n: nat)
    requires values != []
    ensures var a := values[0];
      var here: set<int> := if multiset(values)[a] == n then {a} else {};
      RanksWith(values, n) == RanksWith(Without(values, a), n) + here
      && a !in RanksWith(Without(values, a), n)
  {
    var a := values[0];
    var w := Without(values, a);
    var here: set<int> := if multiset(values)[a] == n then {a} else {};
    forall x ensures x in RanksWith(values, n) <==> x in RanksWith(w, n) + here {
      assert x in values <==> multiset(values)[x] > 0;
      assert x in w <==> multiset(w)[x] > 0;
      WithoutCount(values, a, x);
    }
    WithoutCount(values, a, a);
  }

  /** The number of groups of size n is the number of values occurring exactly n times. */
  lemma {:induction false} SizesCount(values: seq<int>, n: nat)
    ensures Sizes(values)[n] == |RanksWith(values, n)|
    decreases |values|
  {
    if values != [] {
      var a := values[0];
      var w := Without(values, a);
      SizesCount(w, n);
      RanksFirst(values, n);
    }
  }

  /** Sum of a list of counts. */
  function Sum(s: seq<nat>): nat {
    if s == [] then 0 else Sum(s[..|s| - 1]) + s[|s| - 1]
  }

  /** The distinct values, `set(values)`. */
  function Distinct(values: seq<int>): set<int> {
    set v | v in values
  }

  /**
   * Progress of getCount: the values in `pending` are still to be counted
   * and `rest` is the list of values with the counted ones taken out.
   */
  ghost predicate Counted(values: seq<int>, pending: set<int>, rest: seq<int>, count: seq<nat>) {
    PendingRest(values, pending, rest, count) && CountedSizes(values, rest, count)
  }

  /** The pending values are the ones left in rest, and one entry of count per value done. */
  ghost predicate PendingRest(values: seq<int>, pending: set<int>, rest: seq<int>, count: seq<nat>) {
    && (forall x :: x in pending <==> x in rest)
    && (pending == {} <==> rest == [])
    && |count| + |pending| == |Distinct(values)|
  }

  /** The counted groups and the groups left in rest make up all the groups. */
  ghost predicate CountedSizes(values: seq<int>, rest: seq<int>, count: seq<nat>) {
    && (forall x :: x in rest ==> multiset(rest)[x] == multiset(values)[x])
    && multiset(count) + Sizes(rest) == Sizes(values)
    && Sum(count) + |rest| == |values|
    && (forall i :: 0 <= i < |count| ==> count[i] >= 1)
  }

  /** Taking v out of rest keeps the other values, as often as before. */
  lemma WithoutMembers(rest: seq<int>, v: int)
    ensures forall x :: x in Without(rest, v) <==> x in rest && x != v
    ensures forall x :: x != v ==> multiset(Without(rest, v))[x] == multiset(rest)[x]
  {
    forall x ensures x in Without(rest, v) <==> x in rest && x != v
      ensures x != v ==> multiset(Without(rest, v))[x] == multiset(rest)[x]
    {
      WithoutCount(rest, v, x);
    }
  }

  /** The values still pending are those still in rest, before and after v is counted. */
  lemma PendingStep(pending: set<int>, rest: seq<int>, v: int)
    requires forall x :: x in pending <==> x in rest
    requires v in pending
    ensures forall x :: x in pending - {v} <==> x in Without(rest, v)
    ensures pending - {v} == {} <==> Without(rest, v) == []
  {
    var rest' := Without(rest, v);
    WithoutMembers(rest, v);
    if rest' != [] {
      var y := rest'[0];
      assert y in rest';
      assert y in pending - {v};
    } else {
      forall x ensures x !in pending - {v} {
        assert x !in rest';
      }
    }
  }

  /** Counting v moves its group from rest to count. */
  lemma SizesStep(values: seq<int>, rest: seq<int>, count: seq<nat>, v: int)
    requires multiset(count) + Sizes(rest) == Sizes(values)
    requires v in rest && multiset(rest)[v] == multiset(values)[v]
    ensures multiset(count + [multiset(values)[v]]) + Sizes(Without(rest, v)) == Sizes(values)
  {
    SizesPull(rest, v);
  }

  /** Counting v moves its cards from rest to the sum of count. */
  lemma SumStep(values: seq<int>, rest: seq<int>, count: seq<nat>, v: int)
    requires Sum(count) + |rest| == |values|
    requires multiset(rest)[v] == multiset(values)[v]
    ensures Sum(count + [multiset(values)[v]]) + |Without(rest, v)| == |values|
  {
    WithoutLength(rest, v);
    assert (count + [multiset(values)[v]])[..|count|] == count;
  }

  /** The values left in rest still occur as often as in the input. */
  lemma MultiplicityStep(values: seq<int>, rest: seq<int>, v: int)
    requires forall x :: x in rest ==> multiset(rest)[x] == multiset(values)[x]
    ensures forall x :: x in Without(rest, v) ==> multiset(Without(rest, v))[x] == multiset(values)[x]
  {
    WithoutMembers(rest, v);
  }

  /** Counting one more pending value keeps the progress invariant. */
  lemma CountOne(values: seq<int>, pending: set<int>, rest: seq<int>, count: seq<nat>, v: int)
    requires Counted(values, pending, rest, count) && v in pending
    ensures Counted(values, pending - {v}, Without(rest, v), count + [multiset(values)[v]])
  {
    assert v in rest;
    PendingOne(values, pending, rest, count, v);
    SizesOne(values, rest, count, v);
  }

  lemma PendingOne(values: seq<int>, pending: set<int>, rest: seq<int>, count: seq<nat>, v: int)
    requires PendingRest(values, pending, rest, count) && v in pending
    ensures PendingRest(values, pending - {v}, Without(rest, v), count + [multiset(values)[v]])
  {
    PendingStep(pending, rest, v);
  }

  /** Appending a positive count to positive counts keeps them all positive. */
  lemma PositiveSnoc(count: seq<nat>, x: nat)
    requires forall i :: 0 <= i < |count| ==> count[i] >= 1
    requires x >= 1
    ensures forall i :: 0 <= i < |count + [x]| ==> (count + [x])[i] >= 1
  {
  }

  lemma SizesOne(values: seq<int>, rest: seq<int>, count: seq<nat>, v: int)
    requires CountedSizes(values, rest, count) && v in rest
    ensures CountedSizes(values, Without(rest, v), count + [multiset(values)[v]])
  {
    var rest', count' := Without(rest, v), count + [multiset(values)[v]];
    MultiplicityStep(values, rest, v);
    SizesStep(values, rest, count, v);
    SumStep(values, rest, count, v);
    assert multiset(values)[v] >= 1 by {
      assert multiset(rest)[v] == multiset(values)[v];
    }
    PositiveSnoc(count, multiset(values)[v]);
  }

  /** Nothing is counted yet. */
  lemma CountStart(values: seq<int>)
    ensures Counted(values, Distinct(values), values, [])
  {
    var none: seq<nat> := [];
    assert multiset(none) == multiset{};
    if values != [] {
      assert values[0] in Distinct(values);
    }
  }

  /** Once nothing is pending, the counts are all the group sizes. */
  lemma CountDone(values: seq<int>, rest: seq<int>, count: seq<nat>)
    requires Counted(values, {}, rest, count)
    ensures multiset(count) == Sizes(values)
    ensures |count| == |Distinct(values)|
    ensures forall i :: 0 <= i < |count| ==> count[i] >= 1
    ensures Sum(count) == |values|
  {
  }

  /**
   * getCount: for each distinct value, in the arbitrary order in which the
   * set yields them, appends how many cards carry it. The entries are the
   * group sizes, one per distinct value, each at least 1, summing to the
   * number of cards.
   */
  method GetCount(cards: seq<Card>) returns (count: seq<nat>)
    ensures multiset(count) == Sizes(GetValues(cards))
    ensures |count| == |Distinct(GetValues(cards))|
    ensures forall i :: 0 <= i < |count| ==> count[i] >= 1
    ensures Sum(count) == |cards|
  {
    var values := GetValues(cards);
    var pending := Distinct(values);
    count := [];
    ghost var rest := values;
    CountStart(values);
    while pending != {}
      invariant Counted(values, pending, rest, count)
      decreases |pending|
    {
      assert rest[0] in pending;
      var v :| v in pending;
      CountOne(values, pending, rest, count, v);
      count := count + [multiset(values)[v]];
      rest := Without(rest, v);
      pending := pending - {v};
    }
    CountDone(values, rest, count);
  }
}
