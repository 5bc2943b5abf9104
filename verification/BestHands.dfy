/** One lemma per hand category: the tie-break ranks an evaluator must report for its result to
    be best, given that no higher category is present. Both evaluators are proved against these. */
module BestHands {
  import opened Cards
  import opened HandRanking

  ghost predicate HasStraightFlush(cards: set<Card>) {
    exists s: nat, h: nat :: s < 4 && StraightAt(RanksIn(OfSuit(cards, s)), h)
  }

  ghost predicate HasQuads(cards: set<Card>) {
    exists r: nat :: Count(cards, r) >= 4
  }

  ghost predicate HasFullHouse(cards: set<Card>) {
    exists t: nat, p: nat :: t != p && Count(cards, t) >= 3 && Count(cards, p) >= 2
  }

  ghost predicate HasFlush(cards: set<Card>) {
    exists s: nat :: s < 4 && |OfSuit(cards, s)| >= 5
  }

  ghost predicate HasStraight(cards: set<Card>) {
    exists h: nat :: StraightAt(RanksIn(cards), h)
  }

  ghost predicate HasTrips(cards: set<Card>) {
    exists r: nat :: Count(cards, r) >= 3
  }

  ghost predicate HasTwoPair(cards: set<Card>) {
    exists p: nat, q: nat :: p != q && Count(cards, p) >= 2 && Count(cards, q) >= 2
  }

  ghost predicate HasPair(cards: set<Card>) {
    exists r: nat :: Count(cards, r) >= 2
  }

  /** No hand of a category above the given one. */
  ghost predicate NoneAbove(cards: set<Card>, cat: HandCategory) {
    && (cat.Code() < 9 ==> !HasStraightFlush(cards))
    && (cat.Code() < 8 ==> !HasQuads(cards))
    && (cat.Code() < 7 ==> !HasFullHouse(cards))
    && (cat.Code() < 6 ==> !HasFlush(cards))
    && (cat.Code() < 5 ==> !HasStraight(cards))
    && (cat.Code() < 4 ==> !HasTrips(cards))
    && (cat.Code() < 3 ==> !HasTwoPair(cards))
    && (cat.Code() < 2 ==> !HasPair(cards))
  }

  lemma {:induction false} SuitedFiveIsFlush(cards: set<Card>, s: nat, five: set<nat>)
    requires s < 4 && five <= RanksIn(OfSuit(cards, s)) && |five| == 5
    ensures |OfSuit(cards, s)| >= 5
  {
    SuitedRanksSize(cards, s);
    SubsetSize(five, RanksIn(OfSuit(cards, s)));
  }

  lemma {:induction false} StraightRanksSize(h: nat)
    requires 3 <= h <= 12
    ensures |StraightRanks(h)| == 5
  {
    if h == 3 {
      DistinctSize([12, 0, 1, 2, 3]);
      assert Elements([12, 0, 1, 2, 3]) == {12, 0, 1, 2, 3};
    } else {
      DistinctSize([h - 4, h - 3, h - 2, h - 1, h]);
      assert Elements([h - 4, h - 3, h - 2, h - 1, h]) == StraightRanks(h);
    }
  }

  /** A straight in one suit is five cards of that suit. */
  lemma {:induction false} StraightFlushSuit(cards: set<Card>, s: nat, h: nat)
    requires s < 4 && StraightAt(RanksIn(OfSuit(cards, s)), h)
    ensures |OfSuit(cards, s)| >= 5
  {
    StraightRanksSize(h);
    SuitedFiveIsFlush(cards, s, StraightRanks(h));
  }

  lemma {:induction false} NoFlushNoStraightFlush(cards: set<Card>)
    requires !HasFlush(cards)
    ensures !HasStraightFlush(cards)
  {
    if HasStraightFlush(cards) {
      var s, h :| s < 4 && StraightAt(RanksIn(OfSuit(cards, s)), h);
      StraightFlushSuit(cards, s, h);
      assert false;
    }
  }

  /** What a supported result says about the categories present. */
  lemma {:induction false} CategoryPresent(cards: set<Card>, cat: HandCategory, w: EvalResult)
    requires Supports(cards, w) && NoneAbove(cards, cat)
    ensures w.category.Code() <= cat.Code()
  {
    if w.category == Flush {
      var s :| s < 4 && {w.r0, w.r1, w.r2, w.r3, w.r4} <= RanksIn(OfSuit(cards, s));
      FiveDistinct(w);
      SuitedFiveIsFlush(cards, s, {w.r0, w.r1, w.r2, w.r3, w.r4});
    }
  }

  // ---------- the k largest members of a set ----------

  /** ks lists, in strictly descending order, the largest members of ranks, at most k of them. */
  ghost predicate TopList(ranks: set<nat>, ks: seq<nat>, k: nat) {
    && |ks| <= k
    && (forall i :: 0 <= i < |ks| ==> ks[i] in ranks)
    && (forall i, j :: 0 <= i < j < |ks| ==> ks[i] > ks[j])
    && (forall x :: x in ranks && x !in ks ==> |ks| == k && forall i :: 0 <= i < |ks| ==> x < ks[i])
  }

  /** Another descending choice of k members is never lexicographically larger. */
  lemma {:induction false} TopListWins(ranks: set<nat>, ks: seq<nat>, k: nat, ws: seq<nat>, i: nat)
    requires TopList(ranks, ks, k) && |ks| == k == |ws|
    requires forall j :: 0 <= j < k ==> ws[j] in ranks
    requires forall a, b :: 0 <= a < b < k ==> ws[a] > ws[b]
    requires i < k && forall j :: 0 <= j < i ==> ws[j] == ks[j]
    ensures ws[i] <= ks[i]
  {
  }

  /** A short list holds every member. */
  lemma {:induction false} TopListFull(ranks: set<nat>, ks: seq<nat>, k: nat)
    requires TopList(ranks, ks, k) && |ranks| >= k
    ensures |ks| == k
  {
    if |ks| < k {
      assert ranks == Elements(ks);
      DistinctSize(ks);
    }
  }

  // ---------- best result, category by category ----------

  lemma {:induction false} FinishBest(cards: set<Card>, v: EvalResult)
    requires Supports(cards, v) && NoneAbove(cards, v.category)
    requires forall w :: Supports(cards, w) && w.category == v.category ==> AtMost(w, v)
    ensures IsBest(cards, v)
  {
    forall w | Supports(cards, w) ensures w.Value() <= v.Value() {
      NoBetter(cards, v, w);
    }
  }

  lemma {:induction false} NoBetter(cards: set<Card>, v: EvalResult, w: EvalResult)
    requires Supports(cards, v) && NoneAbove(cards, v.category) && Supports(cards, w)
    requires w.category == v.category ==> AtMost(w, v)
    ensures w.Value() <= v.Value()
  {
    CategoryPresent(cards, v.category, w);
    SupportedIsNibbles(cards, w);
    SupportedIsNibbles(cards, v);
    ValueIsLexicographic(w, v);
    assert w.category.Code() == v.category.Code() ==> w.category == v.category;
  }

  lemma {:induction false} BestStraightFlush(cards: set<Card>, s: nat, h: nat)
    requires s < 4 && StraightAt(RanksIn(OfSuit(cards, s)), h)
    requires forall s': nat, h': nat :: s' < 4 && StraightAt(RanksIn(OfSuit(cards, s')), h') ==> h' <= h
    ensures IsBest(cards, EvalResult(StraightFlush, h, 0, 0, 0, 0))
  {
    FinishBest(cards, EvalResult(StraightFlush, h, 0, 0, 0, 0));
  }

  lemma {:induction false} BestQuads(cards: set<Card>, q: nat, k: nat)
    requires NoneAbove(cards, FourOfAKind) && |cards| <= 7
    requires Count(cards, q) >= 4 && k in RanksIn(cards) && k != q
    requires forall x :: x in RanksIn(cards) && x != q ==> x <= k
    ensures IsBest(cards, EvalResult(FourOfAKind, q, k, 0, 0, 0))
  {
    forall r: nat | Count(cards, r) >= 4 ensures r == q {
      if r != q { TwoRanksFit(cards, q, r); }
    }
    FinishBest(cards, EvalResult(FourOfAKind, q, k, 0, 0, 0));
  }

  lemma {:induction false} BestFullHouse(cards: set<Card>, t: nat, p: nat)
    requires NoneAbove(cards, FullHouse)
    requires t != p && Count(cards, t) >= 3 && Count(cards, p) >= 2
    requires forall r: nat :: Count(cards, r) >= 3 ==> r <= t
    requires forall r: nat :: Count(cards, r) >= 2 && r != t ==> r <= p
    ensures IsBest(cards, EvalResult(FullHouse, t, p, 0, 0, 0))
  {
    FinishBest(cards, EvalResult(FullHouse, t, p, 0, 0, 0));
  }

  lemma {:induction false} BestFlush(cards: set<Card>, s: nat, ks: seq<nat>)
    requires NoneAbove(cards, Flush) && s < 4
    requires forall s': nat :: s' < 4 && |OfSuit(cards, s')| >= 5 ==> s' == s
    requires TopList(RanksIn(OfSuit(cards, s)), ks, 5) && |ks| == 5
    ensures IsBest(cards, EvalResult(Flush, ks[0], ks[1], ks[2], ks[3], ks[4]))
  {
    var v := EvalResult(Flush, ks[0], ks[1], ks[2], ks[3], ks[4]);
    assert {ks[0], ks[1], ks[2], ks[3], ks[4]} <= RanksIn(OfSuit(cards, s));
    forall w | Supports(cards, w) && w.category == Flush ensures AtMost(w, v) {
      var s' :| s' < 4 && {w.r0, w.r1, w.r2, w.r3, w.r4} <= RanksIn(OfSuit(cards, s'));
      FlushAtMost(cards, s, ks, w, s');
    }
    FinishBest(cards, v);
  }

  lemma {:induction false} FlushAtMost(cards: set<Card>, s: nat, ks: seq<nat>, w: EvalResult, t: nat)
    requires s < 4 && t < 4 && w.category == Flush && w.r0 > w.r1 > w.r2 > w.r3 > w.r4
    requires {w.r0, w.r1, w.r2, w.r3, w.r4} <= RanksIn(OfSuit(cards, t))
    requires forall s': nat :: s' < 4 && |OfSuit(cards, s')| >= 5 ==> s' == s
    requires TopList(RanksIn(OfSuit(cards, s)), ks, 5) && |ks| == 5
    ensures AtMost(w, EvalResult(Flush, ks[0], ks[1], ks[2], ks[3], ks[4]))
  {
    FiveDistinct(w);
    SuitedFiveIsFlush(cards, t, {w.r0, w.r1, w.r2, w.r3, w.r4});
    var ws := [w.r0, w.r1, w.r2, w.r3, w.r4];
    assert forall j :: 0 <= j < 5 ==> ws[j] in {w.r0, w.r1, w.r2, w.r3, w.r4};
    TopFive(RanksIn(OfSuit(cards, s)), ks, ws);
  }

  lemma {:induction false} FiveDistinct(w: EvalResult)
    requires w.r0 > w.r1 > w.r2 > w.r3 > w.r4
    ensures |{w.r0, w.r1, w.r2, w.r3, w.r4}| == 5
  {
    DistinctSize([w.r0, w.r1, w.r2, w.r3, w.r4]);
    assert Elements([w.r0, w.r1, w.r2, w.r3, w.r4]) == {w.r0, w.r1, w.r2, w.r3, w.r4};
  }

  lemma {:induction false} TopFive(ranks: set<nat>, ks: seq<nat>, ws: seq<nat>)
    requires TopList(ranks, ks, 5) && |ks| == 5 == |ws|
    requires forall j :: 0 <= j < 5 ==> ws[j] in ranks
    requires forall a, b :: 0 <= a < b < 5 ==> ws[a] > ws[b]
    ensures AtMost(EvalResult(Flush, ws[0], ws[1], ws[2], ws[3], ws[4]),
                   EvalResult(Flush, ks[0], ks[1], ks[2], ks[3], ks[4]))
  {
    TopListWins(ranks, ks, 5, ws, 0);
    if ws[0] == ks[0] { TopListWins(ranks, ks, 5, ws, 1); }
    if ws[..2] == ks[..2] { PrefixWins(ranks, ks, ws, 2); }
    if ws[..3] == ks[..3] { PrefixWins(ranks, ks, ws, 3); }
    if ws[..4] == ks[..4] { PrefixWins(ranks, ks, ws, 4); }
  }

  lemma {:induction false} PrefixWins(ranks: set<nat>, ks: seq<nat>, ws: seq<nat>, i: nat)
    requires TopList(ranks, ks, 5) && |ks| == 5 == |ws|
    requires forall j :: 0 <= j < 5 ==> ws[j] in ranks
    requires forall a, b :: 0 <= a < b < 5 ==> ws[a] > ws[b]
    requires i < 5 && ws[..i] == ks[..i]
    ensures ws[i] <= ks[i]
  {
    assert forall j :: 0 <= j < i ==> ws[j] == ws[..i][j] && ks[j] == ks[..i][j];
    TopListWins(ranks, ks, 5, ws, i);
  }

  lemma {:induction false} BestStraight(cards: set<Card>, h: nat)
    requires NoneAbove(cards, Straight)
    requires StraightAt(RanksIn(cards), h)
    requires forall h': nat :: StraightAt(RanksIn(cards), h') ==> h' <= h
    ensures IsBest(cards, EvalResult(Straight, h, 0, 0, 0, 0))
  {
    FinishBest(cards, EvalResult(Straight, h, 0, 0, 0, 0));
  }

  lemma {:induction false} BestTrips(cards: set<Card>, t: nat, ks: seq<nat>)
    requires NoneAbove(cards, ThreeOfAKind) && Count(cards, t) >= 3
    requires TopList(RanksIn(cards) - {t}, ks, 2) && |ks| == 2
    ensures IsBest(cards, EvalResult(ThreeOfAKind, t, ks[0], ks[1], 0, 0))
  {
    var v := EvalResult(ThreeOfAKind, t, ks[0], ks[1], 0, 0);
    assert Supports(cards, v);
    forall w | Supports(cards, w) && w.category == ThreeOfAKind ensures AtMost(w, v) {
      assert w.r0 == t;
      var ws := [w.r1, w.r2];
      forall i | 0 <= i < 2 && (forall j :: 0 <= j < i ==> ws[j] == ks[j]) ensures ws[i] <= ks[i] {
        TopListWins(RanksIn(cards) - {t}, ks, 2, ws, i);
      }
      assert ws[0] == w.r1 && ws[1] == w.r2;
    }
    FinishBest(cards, v);
  }

  lemma {:induction false} BestTwoPair(cards: set<Card>, p: nat, q: nat, k: nat)
    requires NoneAbove(cards, TwoPair)
    requires p > q && Count(cards, p) >= 2 && Count(cards, q) >= 2
    requires forall r: nat :: Count(cards, r) >= 2 && r != p ==> r <= q
    requires k in RanksIn(cards) && k != p && k != q
    requires forall x :: x in RanksIn(cards) && x != p && x != q ==> x <= k
    ensures IsBest(cards, EvalResult(TwoPair, p, q, k, 0, 0))
  {
    FinishBest(cards, EvalResult(TwoPair, p, q, k, 0, 0));
  }

  lemma {:induction false} BestOnePair(cards: set<Card>, p: nat, ks: seq<nat>)
    requires NoneAbove(cards, OnePair) && Count(cards, p) >= 2
    requires TopList(RanksIn(cards) - {p}, ks, 3) && |ks| == 3
    ensures IsBest(cards, EvalResult(OnePair, p, ks[0], ks[1], ks[2], 0))
  {
    var v := EvalResult(OnePair, p, ks[0], ks[1], ks[2], 0);
    assert Supports(cards, v);
    forall w | Supports(cards, w) && w.category == OnePair ensures AtMost(w, v) {
      assert w.r0 == p;
      var ws := [w.r1, w.r2, w.r3];
      forall i | 0 <= i < 3 && (forall j :: 0 <= j < i ==> ws[j] == ks[j]) ensures ws[i] <= ks[i] {
        TopListWins(RanksIn(cards) - {p}, ks, 3, ws, i);
      }
      assert ws[0] == w.r1 && ws[1] == w.r2 && ws[2] == w.r3;
    }
    FinishBest(cards, v);
  }

  lemma {:induction false} BestHighCard(cards: set<Card>, ks: seq<nat>)
    requires NoneAbove(cards, HighCard)
    requires TopList(RanksIn(cards), ks, 5) && |ks| == 5
    ensures IsBest(cards, EvalResult(HighCard, ks[0], ks[1], ks[2], ks[3], ks[4]))
  {
    var v := EvalResult(HighCard, ks[0], ks[1], ks[2], ks[3], ks[4]);
    assert {ks[0], ks[1], ks[2], ks[3], ks[4]} <= RanksIn(cards);
    forall w | Supports(cards, w) && w.category == HighCard ensures AtMost(w, v) {
      HighCardAtMost(cards, ks, w);
    }
    FinishBest(cards, v);
  }

  lemma {:induction false} HighCardAtMost(cards: set<Card>, ks: seq<nat>, w: EvalResult)
    requires w.category == HighCard && w.r0 > w.r1 > w.r2 > w.r3 > w.r4
    requires {w.r0, w.r1, w.r2, w.r3, w.r4} <= RanksIn(cards)
    requires TopList(RanksIn(cards), ks, 5) && |ks| == 5
    ensures AtMost(w, EvalResult(HighCard, ks[0], ks[1], ks[2], ks[3], ks[4]))
  {
    var ws := [w.r0, w.r1, w.r2, w.r3, w.r4];
    assert forall j :: 0 <= j < 5 ==> ws[j] in {w.r0, w.r1, w.r2, w.r3, w.r4};
    TopFive(RanksIn(cards), ks, ws);
  }

  // ---------- counting arguments for at most seven cards ----------

  lemma {:induction false} TwoRanksFit(cards: set<Card>, a: nat, b: nat)
    requires a != b
    ensures Count(cards, a) + Count(cards, b) <= |cards|
  {
    assert OfRank(cards, a) !! OfRank(cards, b);
    SubsetSize(OfRank(cards, a) + OfRank(cards, b), cards);
  }

  lemma {:induction false} TwoSuitsFit(cards: set<Card>, s: nat, s': nat)
    requires s != s'
    ensures |OfSuit(cards, s)| + |OfSuit(cards, s')| <= |cards|
  {
    assert OfSuit(cards, s) !! OfSuit(cards, s');
    SubsetSize(OfSuit(cards, s) + OfSuit(cards, s'), cards);
  }

  lemma {:induction false} SuitedRankOne(cards: set<Card>, s: nat, r: nat)
    ensures |OfRank(OfSuit(cards, s), r)| <= 1
  {
    var S := OfRank(OfSuit(cards, s), r);
    if S != {} {
      var x :| x in S;
      assert S == {x};
    }
  }

  /** Suited cards of two given ranks: at most one of each. */
  lemma {:induction false} SuitMeetsTwoRanks(cards: set<Card>, s: nat, a: nat, b: nat)
    requires a != b
    ensures Count(cards, a) + Count(cards, b) + |OfSuit(cards, s)| <= |cards| + 2
    ensures Count(cards, a) + |OfSuit(cards, s)| <= |cards| + 1
  {
    var A, B, S := OfRank(cards, a), OfRank(cards, b), OfSuit(cards, s);
    SuitedRankOne(cards, s, a);
    SuitedRankOne(cards, s, b);
    assert |A + B| == |A| + |B| by { assert A !! B; }
    assert (A + B) * S == OfRank(S, a) + OfRank(S, b);
    assert |OfRank(S, a) + OfRank(S, b)| <= 2 by { assert OfRank(S, a) !! OfRank(S, b); }
    SubsetSize(A + B + S, cards);
    assert |A + B + S| == |A + B| + |S| - |(A + B) * S|;
    assert A * S == OfRank(S, a);
    SubsetSize(A + S, cards);
    assert |A + S| == |A| + |S| - |A * S|;
  }

  /** Seven cards with a flush have room for neither quads nor a full house. */
  lemma {:induction false} FlushExcludesMultiples(cards: set<Card>)
    requires |cards| <= 7 && HasFlush(cards)
    ensures !HasQuads(cards) && !HasFullHouse(cards)
  {
    var s :| s < 4 && |OfSuit(cards, s)| >= 5;
    forall r: nat ensures Count(cards, r) < 4 {
      SuitMeetsTwoRanks(cards, s, r, r + 1);
    }
    forall t: nat, p: nat | t != p ensures !(Count(cards, t) >= 3 && Count(cards, p) >= 2) {
      SuitMeetsTwoRanks(cards, s, t, p);
    }
  }

  /** Distinct ranks each take at least one card besides those of one or two chosen ranks. */
  lemma {:induction false} RanksNeedCards(cards: set<Card>, ranks: set<nat>, a: nat, b: nat)
    requires ranks <= RanksIn(cards) && a != b
    ensures |ranks - {a, b}| + Count(cards, a) + Count(cards, b) <= |cards|
  {
    var rest := set c | c in cards && Rank(c) in ranks && Rank(c) != a && Rank(c) != b;
    assert ranks - {a, b} <= RanksIn(rest);
    RanksAtMostCards(rest);
    SubsetSize(ranks - {a, b}, RanksIn(rest));
    assert OfRank(cards, a) !! OfRank(cards, b) && rest !! OfRank(cards, a) + OfRank(cards, b);
    SubsetSize(rest + (OfRank(cards, a) + OfRank(cards, b)), cards);
  }

  lemma {:induction false} RanksAtMostCards(cards: set<Card>)
    ensures |RanksIn(cards)| <= |cards|
    decreases |cards|
  {
    if cards != {} {
      var c :| c in cards;
      RanksAtMostCards(cards - {c});
      assert RanksIn(cards) == RanksIn(cards - {c}) + {Rank(c)};
    }
  }

  /** Seven cards with a straight have room for neither quads nor a full house. */
  lemma {:induction false} StraightExcludesMultiples(cards: set<Card>)
    requires |cards| <= 7 && HasStraight(cards)
    ensures !HasQuads(cards) && !HasFullHouse(cards)
  {
    var h :| StraightAt(RanksIn(cards), h);
    forall t: nat, p: nat | t != p
      ensures !(Count(cards, t) >= 3 && Count(cards, p) >= 2)
    {
      StraightLeavesRoom(cards, h, t, p);
    }
    forall r: nat ensures Count(cards, r) < 4 { StraightLeavesRoom(cards, h, r, r + 1); }
  }

  lemma {:induction false} StraightLeavesRoom(cards: set<Card>, h: nat, t: nat, p: nat)
    requires |cards| <= 7 && StraightAt(RanksIn(cards), h) && t != p
    ensures Count(cards, t) + Count(cards, p) <= 4
    ensures Count(cards, t) <= 3
  {
    var S := StraightRanks(h);
    StraightRanksSize(h);
    RanksNeedCards(cards, S, t, p);
    RanksNeedCards(cards, S, t, 13 + t);
    assert |S - {t, 13 + t}| >= 4 by { assert S - {t, 13 + t} == S - {t}; }
    assert |S - {t, p}| >= 3 by { assert S - {t, p} == S - {t} - {p}; }
  }

  /** The cards left when every card of the ranks in `skip` is set aside. */
  ghost function Rest(cards: set<Card>, skip: set<nat>): set<Card> {
    set c | c in cards && Rank(c) !in skip
  }

  /** If no other rank repeats, the rest have pairwise different ranks. */
  lemma {:induction false} SingletonRanks(cards: set<Card>, skip: set<nat>)
    requires forall r: nat :: r !in skip ==> Count(cards, r) <= 1
    ensures |RanksIn(cards) - skip| == |Rest(cards, skip)|
  {
    var rest := Rest(cards, skip);
    forall c, d | c in rest && d in rest && Rank(c) == Rank(d) ensures c == d {
      CountAtMostOne(cards, Rank(c));
    }
    RankInjectiveSize(rest);
    assert RanksIn(rest) == RanksIn(cards) - skip;
  }

  lemma {:induction false} RestSize(cards: set<Card>, a: nat, b: nat)
    ensures |Rest(cards, {a})| == |cards| - Count(cards, a)
    ensures a != b ==> |Rest(cards, {a, b})| == |cards| - Count(cards, a) - Count(cards, b)
  {
    SplitSize(cards, OfRank(cards, a));
    assert cards - OfRank(cards, a) == Rest(cards, {a});
    if a != b {
      assert OfRank(cards, a) !! OfRank(cards, b);
      SplitSize(cards, OfRank(cards, a) + OfRank(cards, b));
      assert cards - (OfRank(cards, a) + OfRank(cards, b)) == Rest(cards, {a, b});
    }
  }

  // ---------- every five or more cards have a best result ----------

  lemma {:induction false} TopListExists(ranks: set<nat>, k: nat) returns (ks: seq<nat>)
    requires k <= |ranks|
    ensures TopList(ranks, ks, k) && |ks| == k
    decreases k
  {
    if k == 0 {
      ks := [];
    } else {
      var top := Largest(ranks);
      var rest := TopListExists(ranks - {top}, k - 1);
      ks := [top] + rest;
      assert forall x :: x in ranks && x !in ks ==> x in ranks - {top} && x !in rest;
    }
  }

  lemma {:induction false} Largest(s: set<nat>) returns (m: nat)
    requires s != {}
    ensures m in s && forall x :: x in s ==> x <= m
  {
    m :| m in s;
    if s != {m} {
      assert s - {m} != {};
      var first := m;
      var rest := Largest(s - {first});
      m := if rest > first then rest else first;
      assert forall x :: x in s ==> x == first || x in s - {first};
    }
  }

  lemma {:induction false} AnySupported(cards: set<Card>) returns (v: EvalResult)
    requires |cards| >= 5
    ensures Supports(cards, v)
  {
    if r: nat :| Count(cards, r) >= 2 {
      v := PairSupported(cards, r);
    } else {
      DistinctRanksSize(cards);
      var ks := TopListExists(RanksIn(cards), 5);
      v := EvalResult(HighCard, ks[0], ks[1], ks[2], ks[3], ks[4]);
    }
  }

  lemma {:induction false} PairSupported(cards: set<Card>, r: nat) returns (v: EvalResult)
    requires |cards| >= 5 && Count(cards, r) >= 2
    ensures Supports(cards, v)
  {
    var others := RanksIn(cards) - {r};
    RestSize(cards, r, r);
    CountAtMostFour(cards, r);
    OtherRanks(cards, r);
    if |others| >= 3 {
      var ks := TopListExists(others, 3);
      v := EvalResult(OnePair, r, ks[0], ks[1], ks[2], 0);
    } else if |others| == 2 {
      var a := Largest(others);
      var b := Largest(others - {a});
      assert |others - {a} - {b}| == 0;
      assert RanksIn(cards) == {r, a, b};
      v := ThreeRanksSupported(cards, r, a, b);
    } else {
      var a := Largest(others);
      assert |others - {a}| == 0;
      assert RanksIn(cards) == {r, a};
      v := TwoRanksSupported(cards, r, a);
    }
  }

  lemma {:induction false} TwoRanksSupported(cards: set<Card>, r: nat, a: nat) returns (v: EvalResult)
    requires |cards| >= 5 && r != a && RanksIn(cards) == {r, a}
    ensures Supports(cards, v)
  {
    CountAtMostFour(cards, r); CountAtMostFour(cards, a);
    OtherRanks(cards, 13);
    assert cards == OfRank(cards, r) + OfRank(cards, a);
    v := if Count(cards, r) >= 4 then EvalResult(FourOfAKind, r, a, 0, 0, 0)
         else if Count(cards, a) >= 4 then EvalResult(FourOfAKind, a, r, 0, 0, 0)
         else if Count(cards, r) >= 3 then EvalResult(FullHouse, r, a, 0, 0, 0)
         else EvalResult(FullHouse, a, r, 0, 0, 0);
  }

  lemma {:induction false} ThreeRanksSupported(cards: set<Card>, r: nat, a: nat, b: nat) returns (v: EvalResult)
    requires |cards| >= 5 && a > b && r !in {a, b} && RanksIn(cards) == {r, a, b}
    requires Count(cards, r) >= 2
    ensures Supports(cards, v)
  {
    OtherRanks(cards, 13);
    assert cards == OfRank(cards, r) + OfRank(cards, a) + OfRank(cards, b);
    v := if Count(cards, r) >= 3 then EvalResult(ThreeOfAKind, r, a, b, 0, 0)
         else if Count(cards, a) >= 2 then TwoPairOf(r, a, b)
         else TwoPairOf(r, b, a);
  }

  lemma {:induction false} OtherRanks(cards: set<Card>, r: nat)
    ensures forall c :: c in Rest(cards, {r}) ==> Rank(c) in RanksIn(cards) - {r}
    ensures RanksIn(cards) - {r} == {} ==> Rest(cards, {r}) == {}
    ensures forall c :: c in cards ==> Rank(c) in RanksIn(cards)
  {
  }

  function TwoPairOf(p: nat, q: nat, k: nat): EvalResult {
    if p > q then EvalResult(TwoPair, p, q, k, 0, 0) else EvalResult(TwoPair, q, p, k, 0, 0)
  }

  lemma {:induction false} Improve(cards: set<Card>, v: EvalResult) returns (best: EvalResult)
    requires Supports(cards, v)
    ensures IsBest(cards, best)
    decreases 0xA00000 - v.Value()
  {
    if w :| Supports(cards, w) && w.Value() > v.Value() {
      SupportedIsNibbles(cards, w);
      best := Improve(cards, w);
    } else {
      best := v;
    }
  }

  lemma {:induction false} BestExists(cards: set<Card>)
    requires |cards| >= 5
    ensures exists v :: IsBest(cards, v)
  {
    var v := AnySupported(cards);
    var best := Improve(cards, v);
  }

  /** The strength of five or more cards: the value of their best result. */
  ghost function Strength(cards: set<Card>): (value: nat)
    requires |cards| >= 5
    ensures forall v :: IsBest(cards, v) ==> v.Value() == value
  {
    BestExists(cards);
    var v :| IsBest(cards, v);
    assert forall w :: IsBest(cards, w) ==> w.Value() == v.Value();
    v.Value()
  }
}
