/** Cards and elementary counting over finite sets.
    A card id is rank * 4 + suit, as in core/include/poker_engine/evaluator/card.h. */
module Cards {

  type Card = c: nat | c < 52

  function Rank(c: Card): (r: nat)
    ensures r < 13
  {
    c / 4
  }

  function Suit(c: Card): (s: nat)
    ensures s < 4
  {
    c % 4
  }

  lemma {:induction false} CardIs(r: nat, s: nat)
    requires r < 13 && s < 4
    ensures Rank(4 * r + s) == r && Suit(4 * r + s) == s
  {
  }

  ghost function OfRank(cards: set<Card>, r: nat): set<Card> {
    set c | c in cards && Rank(c) == r
  }

  ghost function OfSuit(cards: set<Card>, s: nat): set<Card> {
    set c | c in cards && Suit(c) == s
  }

  ghost function Count(cards: set<Card>, r: nat): nat {
    |OfRank(cards, r)|
  }

  ghost function RanksIn(cards: set<Card>): set<nat> {
    set c | c in cards :: Rank(c)
  }

  function Elements<T>(s: seq<T>): set<T> {
    set x | x in s
  }

  ghost predicate Distinct<T>(s: seq<T>) {
    forall i, j :: 0 <= i < j < |s| ==> s[i] != s[j]
  }

  ghost predicate Differ<T>(a: T, b: T) { a != b }

  /** The same as Distinct, for invariants that carry it along without looking at it. */
  ghost predicate Unrepeated<T>(s: seq<T>) {
    forall i, j {:trigger Differ(s[i], s[j])} :: 0 <= i < j < |s| ==> Differ(s[i], s[j])
  }

  lemma {:induction false} UnrepeatedIff<T>(s: seq<T>)
    ensures Unrepeated(s) <==> Distinct(s)
  {
    if Unrepeated(s) {
      forall i, j | 0 <= i < j < |s| ensures s[i] != s[j] {
        assert Differ(s[i], s[j]);
      }
    }
  }

  lemma {:induction false} SubsetSize<T>(a: set<T>, b: set<T>)
    requires a <= b
    ensures |a| <= |b|
  {
    if a != {} {
      var x :| x in a;
      SubsetSize(a - {x}, b - {x});
    }
  }

  lemma {:induction false} SubsetSame<T>(a: set<T>, b: set<T>)
    requires a <= b && |b| <= |a|
    ensures a == b
  {
    if a != b {
      var x :| x in b && x !in a;
      SubsetSize(a, b - {x});
    }
  }

  lemma {:induction false} SplitSize<T>(whole: set<T>, part: set<T>)
    requires part <= whole
    ensures |whole| == |part| + |whole - part|
  {
    assert whole == part + (whole - part);
  }

  lemma {:induction false} DistinctSize<T>(s: seq<T>)
    requires Distinct(s)
    ensures |Elements(s)| == |s|
  {
    if s != [] {
      var init, last := s[..|s| - 1], s[|s| - 1];
      DistinctSize(init);
      assert Elements(s) == Elements(init) + {last};
      assert last !in Elements(init);
    } else {
      assert Elements(s) == {};
    }
  }

  /** Any smaller size is realised by some subset. */
  lemma {:induction false} SubsetOfSize<T>(s: set<T>, n: nat) returns (sub: set<T>)
    requires n <= |s|
    ensures sub <= s && |sub| == n
    decreases |s|
  {
    if |s| == n {
      sub := s;
    } else {
      var x :| x in s;
      sub := SubsetOfSize(s - {x}, n);
    }
  }

  /** An injective image has the same size. */
  lemma {:induction false} RankInjectiveSize(cards: set<Card>)
    requires forall c, d :: c in cards && d in cards && Rank(c) == Rank(d) ==> c == d
    ensures |RanksIn(cards)| == |cards|
    decreases |cards|
  {
    if cards != {} {
      var c :| c in cards;
      var rest := cards - {c};
      RankInjectiveSize(rest);
      assert RanksIn(cards) == RanksIn(rest) + {Rank(c)};
      assert Rank(c) !in RanksIn(rest);
    }
  }

  lemma {:induction false} CountAtMostOne(cards: set<Card>, r: nat)
    requires Count(cards, r) <= 1
    ensures forall c, d :: c in cards && d in cards && Rank(c) == r && Rank(d) == r ==> c == d
  {
    forall c, d | c in cards && d in cards && Rank(c) == r && Rank(d) == r
      ensures c == d
    {
      if c != d {
        SubsetSize({c, d}, OfRank(cards, r));
      }
    }
  }

  lemma {:induction false} CountPositive(cards: set<Card>, r: nat)
    ensures Count(cards, r) > 0 <==> r in RanksIn(cards)
  {
    if r in RanksIn(cards) {
      var c :| c in cards && Rank(c) == r;
      assert c in OfRank(cards, r);
    }
    if Count(cards, r) > 0 {
      var c :| c in OfRank(cards, r);
      assert Rank(c) in RanksIn(cards);
    }
  }

  lemma {:induction false} CountMonotone(part: set<Card>, whole: set<Card>, r: nat)
    requires part <= whole
    ensures Count(part, r) <= Count(whole, r)
  {
    SubsetSize(OfRank(part, r), OfRank(whole, r));
  }

  lemma {:induction false} CountAtMostFour(cards: set<Card>, r: nat)
    ensures Count(cards, r) <= 4
  {
    if r < 13 {
      var four: set<Card> := {4 * r, 4 * r + 1, 4 * r + 2, 4 * r + 3};
      forall c | c in OfRank(cards, r)
        ensures c in four
      {
      }
      SubsetSize(OfRank(cards, r), four);
    } else {
      assert OfRank(cards, r) == {};
    }
  }

  /** When no rank repeats, there are as many ranks as cards. */
  lemma {:induction false} DistinctRanksSize(cards: set<Card>)
    requires forall r :: r in RanksIn(cards) ==> Count(cards, r) <= 1
    ensures |RanksIn(cards)| == |cards|
  {
    forall c, d | c in cards && d in cards && Rank(c) == Rank(d)
      ensures c == d
    {
      assert Rank(c) in RanksIn(cards);
      CountAtMostOne(cards, Rank(c));
    }
    RankInjectiveSize(cards);
  }

  /** Cards of one suit all have different ranks. */
  lemma {:induction false} SuitedRanksSize(cards: set<Card>, s: nat)
    ensures |RanksIn(OfSuit(cards, s))| == |OfSuit(cards, s)|
  {
    RankInjectiveSize(OfSuit(cards, s));
  }
}
