/** The two hand evaluators of core/src/evaluator.cpp, each proved to return the best result its
    cards support. That Evaluate7 agrees with the best of the 21 five-card hands follows. */
module Evaluator {
  import opened Cards
  import opened HandRanking
  import opened BestHands

  // ---------- shared scans ----------

  /** count[r] is how many of the cards have rank r. */
  method Histogram(ids: seq<Card>) returns (count: array<nat>)
    requires Distinct(ids)
    ensures fresh(count) && count.Length == 13
    ensures forall r :: 0 <= r < 13 ==> count[r] == Count(Elements(ids), r)
  {
    count := new nat[13](_ => 0);
    var i := 0;
    while i < |ids|
      invariant 0 <= i <= |ids|
      invariant forall r :: 0 <= r < 13 ==> count[r] == Count(Elements(ids[..i]), r)
    {
      CountNext(ids, i);
      count[Rank(ids[i])] := count[Rank(ids[i])] + 1;
      i := i + 1;
    }
    assert ids[..|ids|] == ids;
  }

  lemma {:induction false} CountNext(ids: seq<Card>, i: nat)
    requires Distinct(ids) && i < |ids|
    ensures forall r: nat ::
      Count(Elements(ids[..i + 1]), r) == Count(Elements(ids[..i]), r) + (if r == Rank(ids[i]) then 1 else 0)
    ensures forall s: nat ::
      |OfSuit(Elements(ids[..i + 1]), s)| == |OfSuit(Elements(ids[..i]), s)| + (if s == Suit(ids[i]) then 1 else 0)
  {
    PrefixElements(ids, i);
    forall r: nat
      ensures Count(Elements(ids[..i + 1]), r) == Count(Elements(ids[..i]), r) + (if r == Rank(ids[i]) then 1 else 0)
    {
      CountAdd(Elements(ids[..i]), ids[i], r, r);
    }
    forall s: nat
      ensures |OfSuit(Elements(ids[..i + 1]), s)| == |OfSuit(Elements(ids[..i]), s)| + (if s == Suit(ids[i]) then 1 else 0)
    {
      CountAdd(Elements(ids[..i]), ids[i], s, s);
    }
  }

  lemma {:induction false} PrefixElements<T>(s: seq<T>, i: nat)
    requires i < |s|
    ensures Elements(s[..i + 1]) == Elements(s[..i]) + {s[i]}
    ensures Distinct(s) ==> s[i] !in Elements(s[..i])
  {
    assert s[..i + 1] == s[..i] + [s[i]];
  }

  lemma {:induction false} CountAdd(was: set<Card>, c: Card, r: nat, s: nat)
    requires c !in was
    ensures Count(was + {c}, r) == Count(was, r) + (if r == Rank(c) then 1 else 0)
    ensures |OfSuit(was + {c}, s)| == |OfSuit(was, s)| + (if s == Suit(c) then 1 else 0)
  {
    assert OfRank(was + {c}, r) == if r == Rank(c) then OfRank(was, r) + {c} else OfRank(was, r);
    assert OfSuit(was + {c}, s) == if s == Suit(c) then OfSuit(was, s) + {c} else OfSuit(was, s);
  }

  /** The ranks present, other than `skip`. */
  ghost function Kickers(cards: set<Card>, skip: nat): set<nat> {
    RanksIn(cards) - {skip}
  }

  /** Scan the histogram downwards for the first k ranks present, skipping one rank. */
  method TopKickers(count: array<nat>, ghost cards: set<Card>, skip: nat, k: nat) returns (ks: seq<nat>)
    requires count.Length == 13 && forall r :: 0 <= r < 13 ==> count[r] == Count(cards, r)
    ensures TopList(Kickers(cards, skip), ks, k)
  {
    ks := [];
    var r := 12;
    while r >= 0 && |ks| < k
      invariant -1 <= r <= 12 && |ks| <= k
      invariant forall i :: 0 <= i < |ks| ==> ks[i] in Kickers(cards, skip) && ks[i] > r
      invariant forall i, j :: 0 <= i < j < |ks| ==> ks[i] > ks[j]
      invariant forall x :: x in Kickers(cards, skip) && x > r ==> x in ks
      decreases r
    {
      CountPositive(cards, r);
      if count[r] > 0 && r != skip {
        ks := ks + [r];
      }
      r := r - 1;
    }
  }

  /** The highest rank present other than a and b: while ((count[k] == 0 || ...) && k >= 0) k--. */
  method HighestOther(count: array<nat>, ghost cards: set<Card>, a: nat, b: nat) returns (k: nat)
    requires count.Length == 13 && forall r :: 0 <= r < 13 ==> count[r] == Count(cards, r)
    requires exists c :: c in cards && Rank(c) != a && Rank(c) != b
    ensures k in RanksIn(cards) && k != a && k != b
    ensures forall x :: x in RanksIn(cards) && x != a && x != b ==> x <= k
  {
    ghost var c :| c in cards && Rank(c) != a && Rank(c) != b;
    CountPositive(cards, Rank(c));
    k := 12;
    while count[k] == 0 || k == a || k == b
      invariant Rank(c) <= k <= 12
      invariant forall x :: x in RanksIn(cards) && x != a && x != b ==> x <= k
      decreases k
    {
      CountPositive(cards, k);
      assert k != Rank(c);
      k := k - 1;
    }
    CountPositive(cards, k);
  }

  // ---------- five cards ----------

  predicate RankSorted(cards: seq<Card>) {
    forall i, j :: 0 <= i < j < |cards| ==> Rank(cards[i]) <= Rank(cards[j])
  }

  /** A compare-and-swap on a sequence value. */
  function Exchange(s: seq<Card>, i: nat, j: nat): (t: seq<Card>)
    requires i < j < |s|
    ensures |t| == |s| && multiset(t) == multiset(s)
  {
    if Rank(s[i]) > Rank(s[j]) then s[i := s[j]][j := s[i]] else s
  }

  method CompareSwap(a: array<Card>, i: nat, j: nat)
    requires i < j < a.Length
    modifies a
    ensures a[..] == Exchange(old(a[..]), i, j)
  {
    if Rank(a[i]) > Rank(a[j]) {
      a[i], a[j] := a[j], a[i];
    }
  }

  function Network(s: seq<Card>): (t: seq<Card>)
    requires |s| == 5
    ensures |t| == 5 && multiset(t) == multiset(s)
  {
    var half := Exchange(Exchange(Exchange(Exchange(s, 0, 1), 3, 4), 2, 4), 2, 3);
    Exchange(Exchange(Exchange(Exchange(Exchange(half, 1, 4), 0, 3), 0, 2), 1, 3), 1, 2)
  }

  /** t is s after one comparator, as far as ranks go. */
  ghost predicate Compared(s: seq<nat>, t: seq<nat>, i: nat, j: nat)
    requires i < j < 5 == |s| == |t|
  {
    && t[i] == (if s[i] > s[j] then s[j] else s[i])
    && t[j] == (if s[i] > s[j] then s[i] else s[j])
    && (0 !in [i, j] ==> t[0] == s[0]) && (1 !in [i, j] ==> t[1] == s[1]) && (2 !in [i, j] ==> t[2] == s[2])
    && (3 !in [i, j] ==> t[3] == s[3]) && (4 !in [i, j] ==> t[4] == s[4])
  }

  function RanksOf(s: seq<Card>): (r: seq<nat>)
    ensures |r| == |s| && forall i :: 0 <= i < |s| ==> r[i] == Rank(s[i])
  {
    seq(|s|, i requires 0 <= i < |s| => Rank(s[i]))
  }

  lemma {:induction false} ExchangeCompares(s: seq<Card>, i: nat, j: nat)
    requires i < j < 5 == |s|
    ensures Compared(RanksOf(s), RanksOf(Exchange(s, i, j)), i, j)
  {
  }

  lemma {:induction false} FourComparators(s: seq<nat>, s1: seq<nat>, s2: seq<nat>, s3: seq<nat>, s4: seq<nat>)
    requires |s| == |s1| == |s2| == |s3| == |s4| == 5
    requires Compared(s, s1, 0, 1) && Compared(s1, s2, 3, 4) && Compared(s2, s3, 2, 4) && Compared(s3, s4, 2, 3)
    ensures s4[0] <= s4[1] && s4[2] <= s4[3] <= s4[4]
  {
  }

  lemma {:induction false} FiveComparators(s: seq<nat>, s1: seq<nat>, s2: seq<nat>, s3: seq<nat>, s4: seq<nat>, s5: seq<nat>)
    requires |s| == |s1| == |s2| == |s3| == |s4| == |s5| == 5
    requires s[0] <= s[1] && s[2] <= s[3] <= s[4]
    requires Compared(s, s1, 1, 4) && Compared(s1, s2, 0, 3) && Compared(s2, s3, 0, 2)
    requires Compared(s3, s4, 1, 3) && Compared(s4, s5, 1, 2)
    ensures s5[0] <= s5[1] <= s5[2] <= s5[3] <= s5[4]
  {
  }

  lemma {:induction false} NetworkSorts(s: seq<Card>)
    requires |s| == 5
    ensures RankSorted(Network(s))
  {
    var s1 := Exchange(s, 0, 1);   ExchangeCompares(s, 0, 1);
    var s2 := Exchange(s1, 3, 4);  ExchangeCompares(s1, 3, 4);
    var s3 := Exchange(s2, 2, 4);  ExchangeCompares(s2, 2, 4);
    var s4 := Exchange(s3, 2, 3);  ExchangeCompares(s3, 2, 3);
    var s5 := Exchange(s4, 1, 4);  ExchangeCompares(s4, 1, 4);
    var s6 := Exchange(s5, 0, 3);  ExchangeCompares(s5, 0, 3);
    var s7 := Exchange(s6, 0, 2);  ExchangeCompares(s6, 0, 2);
    var s8 := Exchange(s7, 1, 3);  ExchangeCompares(s7, 1, 3);
    var s9 := Exchange(s8, 1, 2);  ExchangeCompares(s8, 1, 2);
    FourComparators(RanksOf(s), RanksOf(s1), RanksOf(s2), RanksOf(s3), RanksOf(s4));
    FiveComparators(RanksOf(s4), RanksOf(s5), RanksOf(s6), RanksOf(s7), RanksOf(s8), RanksOf(s9));
    SortedFromRanks(Network(s));
  }

  lemma {:induction false} SortedFromRanks(s: seq<Card>)
    requires |s| == 5
    requires var r := RanksOf(s); r[0] <= r[1] <= r[2] <= r[3] <= r[4]
    ensures RankSorted(s)
  {
    var r := RanksOf(s);
    assert forall i :: 0 <= i < 5 ==> r[i] == Rank(s[i]);
  }

  /** The nine-comparator network, in place on a copy of the five cards. */
  method Sort5ByRank(ids: seq<Card>) returns (sorted: array<Card>)
    requires |ids| == 5
    ensures fresh(sorted) && sorted[..] == Network(ids) && RankSorted(sorted[..])
  {
    sorted := new Card[5](i requires 0 <= i < 5 => ids[i]);
    assert sorted[..] == ids;
    CompareSwap(sorted, 0, 1);
    CompareSwap(sorted, 3, 4);
    CompareSwap(sorted, 2, 4);
    CompareSwap(sorted, 2, 3);
    CompareSwap(sorted, 1, 4);
    CompareSwap(sorted, 0, 3);
    CompareSwap(sorted, 0, 2);
    CompareSwap(sorted, 1, 3);
    CompareSwap(sorted, 1, 2);
    NetworkSorts(ids);
  }

  predicate AllOneSuit(cards: seq<Card>) {
    forall i :: 0 <= i < |cards| ==> Suit(cards[i]) == Suit(cards[0])
  }

  /** The top of the straight formed by five sorted ranks (3 for the wheel), or -1. */
  function CheckStraight(r: seq<nat>): (high: int)
    requires |r| == 5
    ensures high >= -1
  {
    if r[4] == r[3] + 1 && r[3] == r[2] + 1 && r[2] == r[1] + 1 && r[1] == r[0] + 1 then r[4]
    else if r[0] == 0 && r[1] == 1 && r[2] == 2 && r[3] == 3 && r[4] == 12 then 3
    else -1
  }

  /** Sorted ranks form a straight with that top and no other, or none when there is no top. */
  lemma {:induction false} StraightChecked(r: seq<nat>)
    requires |r| == 5 && (forall i :: 0 <= i < 5 ==> r[i] < 13) && forall i, j :: 0 <= i < j < 5 ==> r[i] <= r[j]
    ensures CheckStraight(r) >= 0 ==> StraightAt(Elements(r), CheckStraight(r))
    ensures forall h: nat :: StraightAt(Elements(r), h) ==> h == CheckStraight(r)
  {
    assert Elements(r) == {r[0], r[1], r[2], r[3], r[4]};
    forall h: nat | StraightAt(Elements(r), h) ensures h == CheckStraight(r) {
      StraightShape(r, h);
    }
  }

  /** Five sorted ranks holding a straight are exactly that straight. */
  lemma {:induction false} StraightShape(r: seq<nat>, h: nat)
    requires |r| == 5 && forall i, j :: 0 <= i < j < 5 ==> r[i] <= r[j]
    requires StraightAt(Elements(r), h)
    ensures h == 3 ==> r == [0, 1, 2, 3, 12]
    ensures h != 3 ==> r == [h - 4, h - 3, h - 2, h - 1, h]
  {
    var S := StraightRanks(h);
    StraightRanksSize(h);
    ListSize(r);
    SubsetSame(S, Elements(r));
    ListSizeDistinct(r);
    forall i | 0 <= i < 5 ensures r[i] in S {}
  }

  lemma {:induction false} ListSize<T>(s: seq<T>)
    ensures |Elements(s)| <= |s|
  {
    if s != [] {
      ListSize(s[..|s| - 1]);
      assert Elements(s) == Elements(s[..|s| - 1]) + {s[|s| - 1]};
    }
  }

  lemma {:induction false} ListSizeDistinct<T>(s: seq<T>)
    requires |Elements(s)| == |s|
    ensures Distinct(s)
  {
    if s != [] {
      var init, last := s[..|s| - 1], s[|s| - 1];
      assert Elements(s) == Elements(init) + {last};
      ListSize(init);
      ListSizeDistinct(init);
      assert last in init ==> Elements(s) == Elements(init);
    }
  }

  // ---------- what the five-card tests mean ----------

  lemma {:induction false} FiveFacts(sorted: seq<Card>)
    requires |sorted| == 5 && Distinct(sorted) && RankSorted(sorted)
    ensures |Elements(sorted)| == 5 && RanksIn(Elements(sorted)) == Elements(RanksOf(sorted))
    ensures AllOneSuit(sorted) <==> HasFlush(Elements(sorted))
    ensures AllOneSuit(sorted) ==> OfSuit(Elements(sorted), Suit(sorted[0])) == Elements(sorted)
  {
    var C := Elements(sorted);
    DistinctSize(sorted);
    var r := RanksOf(sorted);
    forall x | x in Elements(r) ensures x in RanksIn(C) {
      var i :| 0 <= i < 5 && r[i] == x;
      assert sorted[i] in C;
    }
    if AllOneSuit(sorted) {
      assert OfSuit(C, Suit(sorted[0])) == C;
    }
    if HasFlush(C) {
      var s: nat :| s < 4 && |OfSuit(C, s)| >= 5;
      SubsetSame(OfSuit(C, s), C);
      assert forall i :: 0 <= i < 5 ==> sorted[i] in OfSuit(C, s);
    }
  }

  /** Five cards hold a straight flush exactly when they are one suit and a straight. */
  lemma {:induction false} FiveStraightFlush(sorted: seq<Card>)
    requires |sorted| == 5 && Distinct(sorted) && RankSorted(sorted)
    ensures HasStraightFlush(Elements(sorted)) <==> AllOneSuit(sorted) && CheckStraight(RanksOf(sorted)) >= 0
    ensures AllOneSuit(sorted) && CheckStraight(RanksOf(sorted)) >= 0 ==>
      IsBest(Elements(sorted), EvalResult(StraightFlush, CheckStraight(RanksOf(sorted)), 0, 0, 0, 0))
  {
    var C := Elements(sorted);
    FiveFacts(sorted);
    StraightChecked(RanksOf(sorted));
    var high := CheckStraight(RanksOf(sorted));
    forall s: nat, h: nat | s < 4 && StraightAt(RanksIn(OfSuit(C, s)), h)
      ensures AllOneSuit(sorted) && h == high
    {
      StraightFlushSuit(C, s, h);
      assert RanksIn(OfSuit(C, s)) <= RanksIn(C);
    }
    if AllOneSuit(sorted) && high >= 0 {
      BestStraightFlush(C, Suit(sorted[0]), high);
    }
  }

  /** The ranks held exactly n times. */
  ghost function RanksHeld(cards: set<Card>, n: nat): set<nat> {
    set r | r in RanksIn(cards) && Count(cards, r) == n
  }

  /** Descending scan of the histogram: the last quad and trip ranks seen, the first two pair ranks. */
  method Groups5(count: array<nat>, ghost cards: set<Card>) returns (quad: int, trips: int, pairs: seq<nat>)
    requires count.Length == 13 && forall r :: 0 <= r < 13 ==> count[r] == Count(cards, r)
    ensures if quad >= 0 then quad in RanksHeld(cards, 4) else RanksHeld(cards, 4) == {}
    ensures if trips >= 0 then trips in RanksHeld(cards, 3) else RanksHeld(cards, 3) == {}
    ensures TopList(RanksHeld(cards, 2), pairs, 2)
  {
    quad, trips, pairs := -1, -1, [];
    var r := 12;
    while r >= 0
      invariant -1 <= r <= 12
      invariant quad >= 0 ==> quad in RanksHeld(cards, 4)
      invariant quad < 0 ==> forall x :: x in RanksHeld(cards, 4) ==> x <= r
      invariant trips >= 0 ==> trips in RanksHeld(cards, 3)
      invariant trips < 0 ==> forall x :: x in RanksHeld(cards, 3) ==> x <= r
      invariant TopList((set x | x in RanksHeld(cards, 2) && x > r), pairs, 2)
    {
      CountPositive(cards, r);
      if count[r] == 4 {
        quad := r;
      } else if count[r] == 3 {
        trips := r;
      } else if count[r] == 2 && |pairs| < 2 {
        pairs := pairs + [r];
      }
      r := r - 1;
    }
    assert RanksHeld(cards, 2) == set x | x in RanksHeld(cards, 2) && x > r;
  }

  method Evaluate5Sorted(sorted: array<Card>) returns (v: EvalResult)
    requires sorted.Length == 5 && Distinct(sorted[..]) && RankSorted(sorted[..])
    ensures IsBest(Elements(sorted[..]), v)
  {
    var ranks := RanksOf(sorted[..]);
    var high := CheckStraight(ranks);
    var straight := high >= 0;
    var flush := AllOneSuit(sorted[..]);
    FiveFacts(sorted[..]);
    FiveStraightFlush(sorted[..]);
    if flush && straight {
      return EvalResult(StraightFlush, high, 0, 0, 0, 0);
    }
    v := Evaluate5Histogram(sorted, ranks, high, flush);
  }

  /** No straight flush: the groups of the histogram, then flush and straight. */
  method Evaluate5Histogram(sorted: array<Card>, ranks: seq<nat>, high: int, flush: bool) returns (v: EvalResult)
    requires sorted.Length == 5 && Distinct(sorted[..]) && RankSorted(sorted[..])
    requires ranks == RanksOf(sorted[..]) && high == CheckStraight(ranks) && flush == AllOneSuit(sorted[..])
    requires !HasStraightFlush(Elements(sorted[..])) && !(flush && high >= 0)
    ensures IsBest(Elements(sorted[..]), v)
  {
    ghost var C := Elements(sorted[..]);
    FiveFacts(sorted[..]);
    var count := Histogram(sorted[..]);
    var quad, trips, pairs := Groups5(count, C);
    if quad >= 0 {
      ghost var other := SomeOther(C, quad, quad);
      var k := HighestOther(count, C, quad, quad);
      BestQuads(C, quad, k);
      return EvalResult(FourOfAKind, quad, k, 0, 0, 0);
    }
    NoRankHeld(C, 4);
    if trips >= 0 && |pairs| >= 1 {
      FiveFullHouse(C, trips, pairs[0]);
      return EvalResult(FullHouse, trips, pairs[0], 0, 0, 0);
    }
    FiveNoFullHouse(C, trips, pairs);
    v := Evaluate5Runs(sorted, ranks, high, flush, count, trips, pairs);
  }

  /** No quads and no full house either. */
  method Evaluate5Runs(sorted: array<Card>, ranks: seq<nat>, high: int, flush: bool, count: array<nat>, trips: int,
                       pairs: seq<nat>) returns (v: EvalResult)
    requires sorted.Length == 5 && Distinct(sorted[..]) && RankSorted(sorted[..])
    requires ranks == RanksOf(sorted[..]) && high == CheckStraight(ranks) && flush == AllOneSuit(sorted[..])
    requires !HasStraightFlush(Elements(sorted[..])) && !(flush && high >= 0)
    requires !HasQuads(Elements(sorted[..])) && !HasFullHouse(Elements(sorted[..]))
    requires count.Length == 13 && forall r :: 0 <= r < 13 ==> count[r] == Count(Elements(sorted[..]), r)
    requires TopList(RanksHeld(Elements(sorted[..]), 2), pairs, 2)
    requires var held := RanksHeld(Elements(sorted[..]), 3); if trips >= 0 then trips in held else held == {}
    ensures IsBest(Elements(sorted[..]), v)
  {
    ghost var C := Elements(sorted[..]);
    FiveFacts(sorted[..]);
    if flush {
      var ks := [ranks[4], ranks[3], ranks[2], ranks[1], ranks[0]];
      FiveFlush(sorted[..], ks);
      return EvalResult(Flush, ks[0], ks[1], ks[2], ks[3], ks[4]);
    }
    StraightChecked(ranks);
    if high >= 0 {
      BestStraight(C, high);
      return EvalResult(Straight, high, 0, 0, 0, 0);
    }
    var top5 := [ranks[4], ranks[3], ranks[2], ranks[1], ranks[0]];
    if trips < 0 && pairs == [] {
      NothingRepeats(C, pairs, 2);
      FiveDistinctRanks(sorted[..], top5);
    }
    v := ByMultiplicity(count, C, trips, pairs, top5, 2);
  }

  /** The shared tail of both evaluators: trips, two pair, one pair, high card. */
  method ByMultiplicity(count: array<nat>, ghost cards: set<Card>, trips: int, pairs: seq<nat>, top5: seq<nat>,
                        ghost k: nat) returns (v: EvalResult)
    requires count.Length == 13 && forall r :: 0 <= r < 13 ==> count[r] == Count(cards, r)
    requires |cards| >= 5 && NoneAbove(cards, Straight) && !HasStraight(cards)
    requires k >= 2 && TopList(RanksHeld(cards, 2), pairs, k)
    requires if trips >= 0 then trips in RanksHeld(cards, 3) else RanksHeld(cards, 3) == {}
    requires trips < 0 && pairs == [] ==> TopList(RanksIn(cards), top5, 5)
    ensures IsBest(cards, v)
  {
    if trips >= 0 {
      var ks := TopKickers(count, cards, trips, 2);
      OneGroupKickers(cards, trips, ks, 2);
      BestTrips(cards, trips, ks);
      return EvalResult(ThreeOfAKind, trips, ks[0], ks[1], 0, 0);
    }
    TopPairs(cards, pairs, k);
    if |pairs| >= 2 {
      ghost var other := SomeOther(cards, pairs[0], pairs[1]);
      var k := HighestOther(count, cards, pairs[0], pairs[1]);
      BestTwoPair(cards, pairs[0], pairs[1], k);
      return EvalResult(TwoPair, pairs[0], pairs[1], k, 0, 0);
    }
    if |pairs| == 1 {
      var ks := TopKickers(count, cards, pairs[0], 3);
      OneGroupKickers(cards, pairs[0], ks, 3);
      BestOnePair(cards, pairs[0], ks);
      return EvalResult(OnePair, pairs[0], ks[0], ks[1], ks[2], 0);
    }
    NothingRepeats(cards, pairs, k);
    DistinctRanksSize(cards);
    TopListFull(RanksIn(cards), top5, 5);
    BestHighCard(cards, top5);
    return EvalResult(HighCard, top5[0], top5[1], top5[2], top5[3], top5[4]);
  }

  // ---------- from the scan to the categories present ----------

  /** No rank is held n times; counts never exceed four. */
  lemma {:induction false} NoRankHeld(cards: set<Card>, n: nat)
    requires n > 0 && RanksHeld(cards, n) == {}
    ensures forall r: nat :: Count(cards, r) != n && Count(cards, r) <= 4
  {
    forall r: nat ensures Count(cards, r) != n && Count(cards, r) <= 4 {
      CountAtMostFour(cards, r);
      CountPositive(cards, r);
      assert r in RanksHeld(cards, n) <==> Count(cards, r) == n;
    }
  }

  lemma {:induction false} FiveNoFullHouse(cards: set<Card>, trips: int, pairs: seq<nat>)
    requires |cards| == 5 && RanksHeld(cards, 4) == {} && TopList(RanksHeld(cards, 2), pairs, 2)
    requires trips < 0 ==> RanksHeld(cards, 3) == {}
    requires trips < 0 || pairs == []
    ensures !HasFullHouse(cards)
  {
    NoRankHeld(cards, 4);
    if trips < 0 { NoRankHeld(cards, 3); } else { NoRankHeld(cards, 2); }
    forall t: nat, p: nat | t != p ensures !(Count(cards, t) >= 3 && Count(cards, p) >= 2) {
      TwoRanksFit(cards, t, p);
    }
  }

  /** With no trips or quads, the pair list shows which categories of pairs are present. */
  lemma {:induction false} TopPairs(cards: set<Card>, pairs: seq<nat>, k: nat)
    requires k >= 2 && TopList(RanksHeld(cards, 2), pairs, k)
    requires !HasQuads(cards) && RanksHeld(cards, 3) == {}
    ensures |pairs| < 2 ==> !HasTwoPair(cards)
    ensures |pairs| < 1 ==> !HasPair(cards)
    ensures |pairs| == 1 ==> forall r: nat :: r != pairs[0] ==> Count(cards, r) <= 1
    ensures |pairs| >= 2 ==> forall r: nat :: Count(cards, r) >= 2 && r != pairs[0] ==> r <= pairs[1]
    ensures |pairs| >= 1 ==> forall r: nat :: Count(cards, r) >= 2 ==> r <= pairs[0]
    ensures !HasTrips(cards)
  {
    NoRankHeld(cards, 3);
    forall r: nat | Count(cards, r) >= 2 ensures r in RanksHeld(cards, 2) {
      CountPositive(cards, r);
    }
  }

  lemma {:induction false} NothingRepeats(cards: set<Card>, pairs: seq<nat>, k: nat)
    requires k >= 2 && TopList(RanksHeld(cards, 2), pairs, k) && pairs == []
    requires !HasQuads(cards) && RanksHeld(cards, 3) == {}
    ensures forall r: nat :: Count(cards, r) <= 1
  {
    TopPairs(cards, pairs, k);
  }

  /** When one rank repeats and no other does, enough kickers exist. */
  lemma {:induction false} OneGroupKickers(cards: set<Card>, g: nat, ks: seq<nat>, k: nat)
    requires forall r: nat :: r != g ==> Count(cards, r) <= 1
    requires |cards| >= Count(cards, g) + k && TopList(Kickers(cards, g), ks, k)
    ensures |ks| == k
  {
    SingletonRanks(cards, {g});
    RestSize(cards, g, g);
    TopListFull(Kickers(cards, g), ks, k);
  }

  /** Two ranks cannot use up five or more cards unless both are full. */
  lemma {:induction false} SomeOther(cards: set<Card>, a: nat, b: nat) returns (c: Card)
    requires Count(cards, a) + (if a == b then 0 else Count(cards, b)) < |cards|
    ensures c in cards && Rank(c) != a && Rank(c) != b
  {
    RestSize(cards, a, b);
    var rest := Rest(cards, {a, b});
    assert a == b ==> {a, b} == {a};
    assert rest != {};
    c :| c in rest;
  }

  lemma {:induction false} FiveFullHouse(cards: set<Card>, t: nat, p: nat)
    requires |cards| == 5 && !HasStraightFlush(cards) && !HasQuads(cards)
    requires t != p && Count(cards, t) >= 3 && Count(cards, p) >= 2
    ensures IsBest(cards, EvalResult(FullHouse, t, p, 0, 0, 0))
  {
    RestSize(cards, t, p);
    forall r: nat | Count(cards, r) >= 1 ensures r == t || r == p {
      var rest := Rest(cards, {t, p});
      assert |rest| <= 0;
      CountPositive(cards, r);
      var c :| c in cards && Rank(c) == r;
      assert c !in rest;
    }
    TwoRanksFit(cards, t, p);
    BestFullHouse(cards, t, p);
  }

  /** Five sorted cards with no repeated rank list their ranks in ascending order. */
  lemma {:induction false} FiveDistinctRanks(sorted: seq<Card>, ks: seq<nat>)
    requires |sorted| == 5 && Distinct(sorted) && RankSorted(sorted)
    requires forall r: nat :: Count(Elements(sorted), r) <= 1
    requires var r := RanksOf(sorted); ks == [r[4], r[3], r[2], r[1], r[0]]
    ensures TopList(RanksIn(Elements(sorted)), ks, 5)
  {
    var C := Elements(sorted);
    FiveFacts(sorted);
    forall i, j | 0 <= i < j < 5 ensures Rank(sorted[i]) < Rank(sorted[j]) {
      CountAtMostOne(C, Rank(sorted[i]));
      assert sorted[i] in C && sorted[j] in C;
    }
    DescendingList(RanksOf(sorted), ks);
  }

  lemma {:induction false} DescendingList(r: seq<nat>, ks: seq<nat>)
    requires |r| == 5 && ks == [r[4], r[3], r[2], r[1], r[0]]
    requires r[0] < r[1] < r[2] < r[3] < r[4]
    ensures TopList(Elements(r), ks, 5)
  {
    forall i | 0 <= i < 5 ensures ks[i] == r[4 - i] {}
  }

  lemma {:induction false} FiveFlush(sorted: seq<Card>, ks: seq<nat>)
    requires |sorted| == 5 && Distinct(sorted) && RankSorted(sorted) && AllOneSuit(sorted)
    requires NoneAbove(Elements(sorted), Flush)
    requires var r := RanksOf(sorted); ks == [r[4], r[3], r[2], r[1], r[0]]
    ensures IsBest(Elements(sorted), EvalResult(Flush, ks[0], ks[1], ks[2], ks[3], ks[4]))
  {
    var C, s := Elements(sorted), Suit(sorted[0]);
    FiveFacts(sorted);
    forall r: nat ensures Count(C, r) <= 1 {
      SuitedRankOne(C, s, r);
    }
    FiveDistinctRanks(sorted, ks);
    forall t: nat | t < 4 && |OfSuit(C, t)| >= 5 ensures t == s {
      if t != s { TwoSuitsFit(C, s, t); }
    }
    BestFlush(C, s, ks);
  }

  method Evaluate5(ids: seq<Card>) returns (v: EvalResult)
    requires |ids| == 5 && Distinct(ids)
    ensures IsBest(Elements(ids), v)
  {
    var sorted := Sort5ByRank(ids);
    SameElements(ids, sorted[..]);
    v := Evaluate5Sorted(sorted);
  }

  lemma {:induction false} SameElements<T>(a: seq<T>, b: seq<T>)
    requires multiset(a) == multiset(b)
    ensures Elements(a) == Elements(b) && |a| == |b|
    ensures Distinct(a) ==> Distinct(b)
  {
    assert |multiset(a)| == |a| && |multiset(b)| == |b|;
    forall x ensures x in a <==> x in b {
      assert x in multiset(a) <==> x in multiset(b);
    }
    if Distinct(a) {
      DistinctSize(a);
      assert Elements(a) == Elements(b);
      ListSizeDistinct(b);
    }
  }

  // ---------- seven cards ----------

  /** The first suit held five or more times, or -1. */
  method FlushSuit(ids: seq<Card>) returns (flushSuit: int)
    requires Distinct(ids)
    ensures -1 <= flushSuit < 4
    ensures flushSuit >= 0 ==> |OfSuit(Elements(ids), flushSuit)| >= 5
    ensures flushSuit < 0 ==> !HasFlush(Elements(ids))
  {
    var suitCount := new nat[4](_ => 0);
    var i := 0;
    while i < |ids|
      invariant 0 <= i <= |ids|
      invariant forall s :: 0 <= s < 4 ==> suitCount[s] == |OfSuit(Elements(ids[..i]), s)|
    {
      CountNext(ids, i);
      suitCount[Suit(ids[i])] := suitCount[Suit(ids[i])] + 1;
      i := i + 1;
    }
    assert ids[..|ids|] == ids;
    flushSuit := -1;
    var s := 0;
    while s < 4
      invariant 0 <= s <= 4 && flushSuit == -1
      invariant forall t: nat :: t < s ==> |OfSuit(Elements(ids), t)| < 5
    {
      if suitCount[s] >= 5 {
        return s;
      }
      s := s + 1;
    }
  }

  /** Whether a card of the given rank and suit is among the ids. */
  method CountStraightSuit(ids: seq<Card>, suit: nat, rank: int) returns (found: bool)
    ensures found <==> rank >= 0 && rank in RanksIn(OfSuit(Elements(ids), suit))
  {
    var i := 0;
    while i < |ids|
      invariant 0 <= i <= |ids|
      invariant forall j :: 0 <= j < i ==> !(Rank(ids[j]) == rank && Suit(ids[j]) == suit)
    {
      if Rank(ids[i]) == rank && Suit(ids[i]) == suit {
        assert ids[i] in OfSuit(Elements(ids), suit);
        return true;
      }
      i := i + 1;
    }
    return false;
  }

  method StraightFlushHasWheel(ids: seq<Card>, suit: nat) returns (wheel: bool)
    ensures wheel <==> StraightAt(RanksIn(OfSuit(Elements(ids), suit)), 3)
  {
    var ranks: seq<nat> := [12, 0, 1, 2, 3];
    var i := 0;
    while i < 5
      invariant 0 <= i <= 5
      invariant forall j :: 0 <= j < i ==> ranks[j] in RanksIn(OfSuit(Elements(ids), suit))
    {
      var found := CountStraightSuit(ids, suit, ranks[i]);
      if !found {
        assert ranks[i] in StraightRanks(3);
        return false;
      }
      i := i + 1;
    }
    assert ranks[0] == 12 && ranks[1] == 0 && ranks[2] == 1 && ranks[3] == 2 && ranks[4] == 3;
    return true;
  }

  /** Whether one suit holds the straight with top hi. */
  method StraightInSuit(ids: seq<Card>, suit: nat, hi: nat) returns (ok: bool)
    requires 4 <= hi <= 12
    ensures ok <==> StraightAt(RanksIn(OfSuit(Elements(ids), suit)), hi)
  {
    ghost var R := RanksIn(OfSuit(Elements(ids), suit));
    var k := 0;
    while k < 5
      invariant 0 <= k <= 5
      invariant forall x :: hi - k < x <= hi ==> x in R
    {
      ok := CountStraightSuit(ids, suit, hi - k);
      if !ok {
        assert hi - k in StraightRanks(hi);
        return;
      }
      k := k + 1;
    }
    return true;
  }

  /** The highest straight of one suit with top 4..12, or -1. */
  method StraightFlushHigh(ids: seq<Card>, suit: nat) returns (high: int)
    ensures high == -1 || (4 <= high <= 12 && StraightAt(RanksIn(OfSuit(Elements(ids), suit)), high))
    ensures forall h: nat :: h > 3 && StraightAt(RanksIn(OfSuit(Elements(ids), suit)), h) ==> h <= high
  {
    high := -1;
    var hi := 12;
    while hi >= 4
      invariant 3 <= hi <= 12 && high == -1
      invariant forall h: nat :: h > hi ==> !StraightAt(RanksIn(OfSuit(Elements(ids), suit)), h)
    {
      var ok := StraightInSuit(ids, suit, hi);
      if ok {
        return hi;
      }
      hi := hi - 1;
    }
  }

  /** The highest straight with top 4..12 in the histogram, or -1, and whether the wheel is there. */
  method StraightHigh(count: array<nat>, ghost cards: set<Card>) returns (high: int, wheel: bool)
    requires count.Length == 13 && forall r :: 0 <= r < 13 ==> count[r] == Count(cards, r)
    ensures high == -1 || (4 <= high <= 12 && StraightAt(RanksIn(cards), high))
    ensures forall h: nat :: h > 3 && StraightAt(RanksIn(cards), h) ==> h <= high
    ensures wheel <==> StraightAt(RanksIn(cards), 3)
  {
    ghost var R := RanksIn(cards);
    ShowsRanks(count, cards);
    wheel := HasWheel(count, R);
    high := -1;
    var hi := 12;
    while hi >= 4
      invariant 3 <= hi <= 12 && high == -1
      invariant forall h: nat :: h > hi ==> !StraightAt(R, h)
    {
      var run := RunTo(count, hi, R);
      if run {
        high := hi;
        return;
      }
      hi := hi - 1;
    }
  }

  method HasWheel(count: array<nat>, ghost ranks: set<nat>) returns (wheel: bool)
    requires count.Length == 13 && forall r :: 0 <= r < 13 ==> (count[r] > 0 <==> r in ranks)
    ensures wheel <==> StraightAt(ranks, 3)
  {
    wheel := count[12] > 0 && count[0] > 0 && count[1] > 0 && count[2] > 0 && count[3] > 0;
  }

  /** Five ranks in a row up to hi. */
  method RunTo(count: array<nat>, hi: nat, ghost ranks: set<nat>) returns (run: bool)
    requires count.Length == 13 && 4 <= hi <= 12 && forall r :: 0 <= r < 13 ==> (count[r] > 0 <==> r in ranks)
    ensures run <==> StraightAt(ranks, hi)
  {
    run := count[hi] > 0 && count[hi - 1] > 0 && count[hi - 2] > 0 && count[hi - 3] > 0 && count[hi - 4] > 0;
    assert run <==> {hi - 4, hi - 3, hi - 2, hi - 1, hi} <= ranks;
  }

  lemma {:induction false} ShowsRanks(count: array<nat>, cards: set<Card>)
    requires count.Length == 13 && forall r :: 0 <= r < 13 ==> count[r] == Count(cards, r)
    ensures forall r :: 0 <= r < 13 ==> (count[r] > 0 <==> r in RanksIn(cards))
  {
    forall r: nat | r < 13 ensures count[r] > 0 <==> r in RanksIn(cards) { CountPositive(cards, r); }
  }

  /** The five highest ranks of one suit. */
  method FlushRanks(ids: seq<Card>, suit: nat) returns (fr: seq<nat>)
    ensures TopList(RanksIn(OfSuit(Elements(ids), suit)), fr, 5)
  {
    fr := [];
    var r: int := 12;
    while r >= 0 && |fr| < 5
      invariant -1 <= r <= 12 && |fr| <= 5
      invariant forall i :: 0 <= i < |fr| ==> fr[i] in RanksIn(OfSuit(Elements(ids), suit)) && fr[i] > r
      invariant forall i, j :: 0 <= i < j < |fr| ==> fr[i] > fr[j]
      invariant forall x :: x in RanksIn(OfSuit(Elements(ids), suit)) && x > r ==> x in fr
      decreases r
    {
      var found := CountStraightSuit(ids, suit, r);
      if found {
        fr := fr + [r];
      }
      r := r - 1;
    }
  }

  /** Descending scan of the histogram: quad, the first two trip ranks, the first three pair ranks. */
  method Groups7(count: array<nat>, ghost cards: set<Card>) returns (quad: int, trip: seq<nat>, pair: seq<nat>)
    requires count.Length == 13 && forall r :: 0 <= r < 13 ==> count[r] == Count(cards, r)
    ensures if quad >= 0 then quad in RanksHeld(cards, 4) else RanksHeld(cards, 4) == {}
    ensures TopList(RanksHeld(cards, 3), trip, 2)
    ensures TopList(RanksHeld(cards, 2), pair, 3)
  {
    quad, trip, pair := -1, [], [];
    var r := 12;
    while r >= 0
      invariant -1 <= r <= 12
      invariant quad >= 0 ==> quad in RanksHeld(cards, 4)
      invariant quad < 0 ==> forall x :: x in RanksHeld(cards, 4) ==> x <= r
      invariant TopList((set x | x in RanksHeld(cards, 3) && x > r), trip, 2)
      invariant TopList((set x | x in RanksHeld(cards, 2) && x > r), pair, 3)
    {
      CountPositive(cards, r);
      if count[r] == 4 {
        quad := r;
      } else if count[r] == 3 {
        if |trip| < 2 { trip := trip + [r]; }
      } else if count[r] == 2 {
        if |pair| < 3 { pair := pair + [r]; }
      }
      r := r - 1;
    }
    assert RanksHeld(cards, 3) == set x | x in RanksHeld(cards, 3) && x > r;
    assert RanksHeld(cards, 2) == set x | x in RanksHeld(cards, 2) && x > r;
  }

  method Evaluate7(ids: seq<Card>) returns (v: EvalResult)
    requires |ids| == 7 && Distinct(ids)
    ensures IsBest(Elements(ids), v)
  {
    ghost var C := Elements(ids);
    DistinctSize(ids);
    var flushSuit := FlushSuit(ids);
    var count := Histogram(ids);
    var straightHigh, wheel := StraightHigh(count, C);
    var top5 := TopKickers(count, C, 13, 5);
    assert Kickers(C, 13) == RanksIn(C);
    if flushSuit >= 0 {
      v := Evaluate7Flush(ids, flushSuit);
      return;
    }
    NoFlushNoStraightFlush(C);
    if straightHigh >= 0 {
      StraightExcludesMultiples(C);
      BestStraight(C, straightHigh);
      return EvalResult(Straight, straightHigh, 0, 0, 0, 0);
    }
    if wheel {
      StraightExcludesMultiples(C);
      BestStraight(C, 3);
      return EvalResult(Straight, 3, 0, 0, 0, 0);
    }
    assert !HasStraight(C);
    v := Evaluate7NoRun(count, C, top5);
  }

  /** The flush branch: straight flush, wheel straight flush, or the five highest suited cards. */
  method Evaluate7Flush(ids: seq<Card>, flushSuit: nat) returns (v: EvalResult)
    requires |ids| == 7 && Distinct(ids)
    requires flushSuit < 4 && |OfSuit(Elements(ids), flushSuit)| >= 5
    ensures IsBest(Elements(ids), v)
  {
    ghost var C := Elements(ids);
    DistinctSize(ids);
    forall t: nat | t < 4 && |OfSuit(C, t)| >= 5 ensures t == flushSuit {
      if t != flushSuit { TwoSuitsFit(C, t, flushSuit); }
    }
    forall t: nat, h: nat | t < 4 && StraightAt(RanksIn(OfSuit(C, t)), h) ensures t == flushSuit {
      StraightFlushSuit(C, t, h);
    }
    var sfHigh := StraightFlushHigh(ids, flushSuit);
    var sfWheel := StraightFlushHasWheel(ids, flushSuit);
    if sfHigh >= 0 {
      BestStraightFlush(C, flushSuit, sfHigh);
      return EvalResult(StraightFlush, sfHigh, 0, 0, 0, 0);
    }
    if sfWheel {
      BestStraightFlush(C, flushSuit, 3);
      return EvalResult(StraightFlush, 3, 0, 0, 0, 0);
    }
    var fr := FlushRanks(ids, flushSuit);
    FlushExcludesMultiples(C);
    SuitedRanksSize(C, flushSuit);
    TopListFull(RanksIn(OfSuit(C, flushSuit)), fr, 5);
    BestFlush(C, flushSuit, fr);
    return EvalResult(Flush, fr[0], fr[1], fr[2], fr[3], fr[4]);
  }

  /** Neither flush nor straight: quads, full house, then the shared tail. */
  method Evaluate7NoRun(count: array<nat>, ghost cards: set<Card>, top5: seq<nat>) returns (v: EvalResult)
    requires count.Length == 13 && forall r :: 0 <= r < 13 ==> count[r] == Count(cards, r)
    requires |cards| == 7 && !HasFlush(cards) && !HasStraightFlush(cards) && !HasStraight(cards)
    requires TopList(RanksIn(cards), top5, 5)
    ensures IsBest(cards, v)
  {
    var quad, trip, pair := Groups7(count, cards);
    if quad >= 0 {
      ghost var other := SomeOther(cards, quad, quad);
      var k := HighestOther(count, cards, quad, quad);
      BestQuads(cards, quad, k);
      return EvalResult(FourOfAKind, quad, k, 0, 0, 0);
    }
    NoRankHeld(cards, 4);
    if |trip| >= 1 && (|trip| >= 2 || |pair| >= 1) {
      var duo := if |trip| >= 2 then trip[1] else pair[0];
      SevenFullHouse(cards, trip, pair);
      return EvalResult(FullHouse, trip[0], duo, 0, 0, 0);
    }
    SevenNoFullHouse(cards, trip, pair);
    v := ByMultiplicity(count, cards, if |trip| >= 1 then trip[0] else -1, pair, top5, 3);
  }

  lemma {:induction false} SevenFullHouse(cards: set<Card>, trip: seq<nat>, pair: seq<nat>)
    requires |cards| == 7 && NoneAbove(cards, FullHouse)
    requires TopList(RanksHeld(cards, 3), trip, 2) && TopList(RanksHeld(cards, 2), pair, 3)
    requires |trip| >= 1 && (|trip| >= 2 || |pair| >= 1)
    ensures IsBest(cards, EvalResult(FullHouse, trip[0], if |trip| >= 2 then trip[1] else pair[0], 0, 0, 0))
  {
    var t, p := trip[0], if |trip| >= 2 then trip[1] else pair[0];
    assert trip[0] in RanksHeld(cards, 3);
    assert |trip| >= 2 ==> trip[1] in RanksHeld(cards, 3);
    assert |pair| >= 1 ==> pair[0] in RanksHeld(cards, 2);
    forall r: nat | Count(cards, r) >= 2
      ensures (Count(cards, r) >= 3 ==> r <= t) && (r != t ==> r <= p)
    {
      CountPositive(cards, r);
      assert r in RanksHeld(cards, 3) || r in RanksHeld(cards, 2);
      if |trip| >= 2 && r != t && r != p {
        ThreeRanksFit(cards, t, p, r);
      }
    }
    BestFullHouse(cards, t, p);
  }

  lemma {:induction false} ThreeRanksFit(cards: set<Card>, a: nat, b: nat, c: nat)
    requires a != b && b != c && a != c
    ensures Count(cards, a) + Count(cards, b) + Count(cards, c) <= |cards|
  {
    var A, B, D := OfRank(cards, a), OfRank(cards, b), OfRank(cards, c);
    assert A !! B && A + B !! D;
    SubsetSize(A + B + D, cards);
  }

  lemma {:induction false} SevenNoFullHouse(cards: set<Card>, trip: seq<nat>, pair: seq<nat>)
    requires RanksHeld(cards, 4) == {}
    requires TopList(RanksHeld(cards, 3), trip, 2) && TopList(RanksHeld(cards, 2), pair, 3)
    requires |trip| == 0 || (|trip| == 1 && |pair| == 0)
    ensures !HasFullHouse(cards) && (|trip| == 0 ==> RanksHeld(cards, 3) == {})
  {
    NoRankHeld(cards, 4);
    if |trip| == 0 { NoRankHeld(cards, 3); } else { NoRankHeld(cards, 2); }
    forall t: nat, p: nat | t != p ensures !(Count(cards, t) >= 3 && Count(cards, p) >= 2) {
      CountPositive(cards, t);
      CountPositive(cards, p);
      assert Count(cards, t) == 3 ==> t in RanksHeld(cards, 3);
      assert Count(cards, p) == 3 ==> p in RanksHeld(cards, 3);
    }
  }

  // ---------- the two evaluators agree ----------

  /** Positions in strictly increasing order, all below n. */
  predicate Increasing(ps: seq<nat>, n: nat) {
    && (forall i :: 0 <= i < |ps| ==> ps[i] < n)
    && (forall i, j :: 0 <= i < j < |ps| ==> ps[i] < ps[j])
  }

  /** The cards at the given positions. */
  function Picks(ids: seq<Card>, ps: seq<nat>): (five: seq<Card>)
    requires forall i :: 0 <= i < |ps| ==> ps[i] < |ids|
    ensures |five| == |ps| && forall i :: 0 <= i < |ps| ==> five[i] == ids[ps[i]]
  {
    seq(|ps|, i requires 0 <= i < |ps| => ids[ps[i]])
  }

  lemma {:induction false} PicksDistinct(ids: seq<Card>, ps: seq<nat>)
    requires Distinct(ids) && Increasing(ps, |ids|)
    ensures Distinct(Picks(ids, ps)) && Elements(Picks(ids, ps)) <= Elements(ids)
  {
  }

  lemma {:induction false} PicksAppend(ids: seq<Card>, rest: seq<nat>, n: nat)
    requires Increasing(rest, n) && n < |ids|
    ensures Increasing(rest + [n], |ids|)
    ensures Elements(Picks(ids, rest + [n])) == Elements(Picks(ids, rest)) + {ids[n]}
  {
    assert Picks(ids, rest + [n]) == Picks(ids, rest) + [ids[n]];
  }

  /** Any set of the listed cards sits at increasing positions. */
  lemma {:induction false} PositionsOf(ids: seq<Card>, F: set<Card>) returns (ps: seq<nat>)
    requires F <= Elements(ids)
    ensures |ps| == |F| && Increasing(ps, |ids|) && Elements(Picks(ids, ps)) == F
  {
    if ids == [] {
      ps := [];
      assert F == {} == Elements(Picks(ids, ps));
    } else {
      var n := |ids| - 1;
      var init, last := ids[..n], ids[n];
      var rest := PositionsOf(init, F - {last});
      assert Picks(init, rest) == Picks(ids, rest);
      if last in F {
        ps := rest + [n];
        PicksAppend(ids, rest, n);
      } else {
        assert F - {last} == F;
        ps := rest;
      }
    }
  }

  /** The best result of a list of cards is the largest best result of the five-card hands at
      increasing positions in it, and one of those hands attains it. For seven cards, with the
      contracts of Evaluate7 and Evaluate5, this says the fast evaluator refines the simple one. */
  lemma {:induction false} BestIsMaxOverPositions(ids: seq<Card>, v: EvalResult)
    requires Distinct(ids) && IsBest(Elements(ids), v)
    ensures forall ps, w ::
      |ps| == 5 && Increasing(ps, |ids|) && IsBest(Elements(Picks(ids, ps)), w) ==> w.Value() <= v.Value()
    ensures exists ps :: |ps| == 5 && Increasing(ps, |ids|) && IsBest(Elements(Picks(ids, ps)), v)
  {
    BestIsMaxOverFives(Elements(ids), v);
    forall ps, w | |ps| == 5 && Increasing(ps, |ids|) && IsBest(Elements(Picks(ids, ps)), w)
      ensures w.Value() <= v.Value()
    {
      PicksDistinct(ids, ps);
      DistinctSize(Picks(ids, ps));
    }
    var F :| F <= Elements(ids) && |F| == 5 && IsBest(F, v);
    var ps := PositionsOf(ids, F);
  }
}
