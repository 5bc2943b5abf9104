/** What a poker hand is worth, stated without reference to any evaluator:
    a set of cards SUPPORTS a result when it contains five cards showing it, and a result is
    BEST for a set when it is supported and no supported result has a larger value. */
module HandRanking {
  import opened Cards

  datatype HandCategory =
    | HighCard | OnePair | TwoPair | ThreeOfAKind | Straight
    | Flush | FullHouse | FourOfAKind | StraightFlush
  {
    function Code(): nat {
      match this
      case HighCard => 1
      case OnePair => 2
      case TwoPair => 3
      case ThreeOfAKind => 4
      case Straight => 5
      case Flush => 6
      case FullHouse => 7
      case FourOfAKind => 8
      case StraightFlush => 9
    }
  }

  /** The evaluator's result record; r0..r4 are its five tie-break ranks. */
  datatype EvalResult = EvalResult(category: HandCategory, r0: nat, r1: nat, r2: nat, r3: nat, r4: nat)
  {
    /** The packed strength score: category, then five nibbles. */
    function Value(): nat {
      ((((category.Code() * 16 + r0) * 16 + r1) * 16 + r2) * 16 + r3) * 16 + r4
    }

    predicate Nibbles() {
      r0 < 16 && r1 < 16 && r2 < 16 && r3 < 16 && r4 < 16
    }
  }

  /** From the lowest to the highest. */
  const CATEGORIES: seq<HandCategory> :=
    [HighCard, OnePair, TwoPair, ThreeOfAKind, Straight, Flush, FullHouse, FourOfAKind, StraightFlush]

  /** A hand of a higher category has the larger value, whatever its ranks. */
  lemma {:induction false} CategoryFirst(i: nat, j: nat, w: EvalResult, v: EvalResult)
    requires i < j < |CATEGORIES| && w.category == CATEGORIES[i] && v.category == CATEGORIES[j] && w.Nibbles() && v.Nibbles()
    ensures w.Value() < v.Value()
  {
    assert w.category.Code() == i + 1 && v.category.Code() == j + 1;
  }

  /** Category first, then the five ranks, lexicographically. */
  predicate AtMost(w: EvalResult, v: EvalResult) {
    || w.category.Code() < v.category.Code()
    || (&& w.category == v.category
        && w.r0 <= v.r0
        && (w.r0 == v.r0 ==> w.r1 <= v.r1)
        && (w.r0 == v.r0 && w.r1 == v.r1 ==> w.r2 <= v.r2)
        && (w.r0 == v.r0 && w.r1 == v.r1 && w.r2 == v.r2 ==> w.r3 <= v.r3)
        && (w.r0 == v.r0 && w.r1 == v.r1 && w.r2 == v.r2 && w.r3 == v.r3 ==> w.r4 <= v.r4))
  }

  /** Packing is an order isomorphism as long as every rank fits a nibble. */
  lemma {:induction false} ValueIsLexicographic(w: EvalResult, v: EvalResult)
    requires w.Nibbles() && v.Nibbles()
    ensures w.Value() <= v.Value() <==> AtMost(w, v)
    ensures w.Value() == v.Value() <==> w == v
  {
    var wc, vc := w.category.Code(), v.category.Code();
    assert wc == vc ==> w.category == v.category;
  }

  // ---------- what a set of cards contains ----------

  /** The ranks of a straight with the given top: 4..12, or 3 for the wheel A-2-3-4-5. */
  function StraightRanks(high: nat): set<nat> {
    if high == 3 then {12, 0, 1, 2, 3}
    else if 4 <= high <= 12 then {high - 4, high - 3, high - 2, high - 1, high}
    else {13}
  }

  ghost predicate StraightAt(ranks: set<nat>, high: nat) {
    3 <= high <= 12 && StraightRanks(high) <= ranks
  }

  ghost predicate Supports(cards: set<Card>, v: EvalResult) {
    var R := RanksIn(cards);
    match v.category
    case StraightFlush =>
      && (exists s :: s < 4 && StraightAt(RanksIn(OfSuit(cards, s)), v.r0))
      && v.r1 == v.r2 == v.r3 == v.r4 == 0
    case FourOfAKind =>
      Count(cards, v.r0) >= 4 && v.r1 in R && v.r1 != v.r0 && v.r2 == v.r3 == v.r4 == 0
    case FullHouse =>
      Count(cards, v.r0) >= 3 && Count(cards, v.r1) >= 2 && v.r1 != v.r0 && v.r2 == v.r3 == v.r4 == 0
    case Flush =>
      && v.r0 > v.r1 > v.r2 > v.r3 > v.r4
      && exists s :: s < 4 && {v.r0, v.r1, v.r2, v.r3, v.r4} <= RanksIn(OfSuit(cards, s))
    case Straight =>
      StraightAt(R, v.r0) && v.r1 == v.r2 == v.r3 == v.r4 == 0
    case ThreeOfAKind =>
      && Count(cards, v.r0) >= 3 && v.r1 > v.r2 && {v.r1, v.r2} <= R && v.r0 !in {v.r1, v.r2}
      && v.r3 == v.r4 == 0
    case TwoPair =>
      && Count(cards, v.r0) >= 2 && Count(cards, v.r1) >= 2 && v.r0 > v.r1
      && v.r2 in R && v.r2 !in {v.r0, v.r1} && v.r3 == v.r4 == 0
    case OnePair =>
      && Count(cards, v.r0) >= 2 && v.r1 > v.r2 > v.r3 && {v.r1, v.r2, v.r3} <= R
      && v.r0 !in {v.r1, v.r2, v.r3} && v.r4 == 0
    case HighCard =>
      v.r0 > v.r1 > v.r2 > v.r3 > v.r4 && {v.r0, v.r1, v.r2, v.r3, v.r4} <= R
  }

  ghost predicate IsBest(cards: set<Card>, v: EvalResult) {
    && Supports(cards, v)
    && forall w :: Supports(cards, w) ==> w.Value() <= v.Value()
  }

  lemma {:induction false} SupportedIsNibbles(cards: set<Card>, v: EvalResult)
    requires Supports(cards, v)
    ensures v.Nibbles()
  {
    CountPositive(cards, v.r0);
    CountPositive(cards, v.r1);
    if v.category == Flush {
      var s :| s < 4 && {v.r0, v.r1, v.r2, v.r3, v.r4} <= RanksIn(OfSuit(cards, s));
      assert v.r0 in RanksIn(OfSuit(cards, s));
    }
  }

  /** Adding cards never loses a hand. */
  lemma {:induction false} SupportMonotone(part: set<Card>, whole: set<Card>, v: EvalResult)
    requires part <= whole && Supports(part, v)
    ensures Supports(whole, v)
  {
    CountMonotone(part, whole, v.r0);
    CountMonotone(part, whole, v.r1);
    forall s ensures RanksIn(OfSuit(part, s)) <= RanksIn(OfSuit(whole, s)) {
      assert OfSuit(part, s) <= OfSuit(whole, s);
    }
  }

  lemma {:induction false} BestIsUnique(cards: set<Card>, v: EvalResult, w: EvalResult)
    requires IsBest(cards, v) && IsBest(cards, w)
    ensures v == w
  {
    SupportedIsNibbles(cards, v);
    SupportedIsNibbles(cards, w);
    ValueIsLexicographic(v, w);
  }

  // ---------- every supported result already shows in five of the cards ----------

  /** How many cards of rank ranks[i] the list asks for, summed. */
  function Total(need: seq<nat>): nat {
    if need == [] then 0 else need[0] + Total(need[1..])
  }

  /** Pick need[i] cards of each listed rank. */
  lemma {:induction false} Gather(cards: set<Card>, ranks: seq<nat>, need: seq<nat>) returns (pick: set<Card>)
    requires |ranks| == |need| && Distinct(ranks)
    requires forall i :: 0 <= i < |ranks| ==> Count(cards, ranks[i]) >= need[i]
    ensures pick <= cards && |pick| == Total(need)
    ensures forall i :: 0 <= i < |ranks| ==> Count(pick, ranks[i]) >= need[i]
    ensures forall c :: c in pick ==> Rank(c) in ranks
    decreases |ranks|
  {
    if ranks == [] {
      pick := {};
    } else {
      var rest := Gather(cards, ranks[1..], need[1..]);
      var mine := SubsetOfSize(OfRank(cards, ranks[0]), need[0]);
      pick := mine + rest;
      assert mine !! rest by {
        forall c | c in mine ensures c !in rest {
          assert Rank(c) == ranks[0] && ranks[0] !in ranks[1..];
        }
      }
      forall i | 0 <= i < |ranks| ensures Count(pick, ranks[i]) >= need[i] {
        if i == 0 {
          assert mine <= OfRank(pick, ranks[0]);
          SubsetSize(mine, OfRank(pick, ranks[0]));
        } else {
          assert ranks[i] == ranks[1..][i - 1] && need[i] == need[1..][i - 1];
          CountMonotone(rest, pick, ranks[i]);
        }
      }
    }
  }

  lemma {:induction false} GatherFive(cards: set<Card>, a: nat, b: nat, c: nat, d: nat, e: nat) returns (pick: set<Card>)
    requires {a, b, c, d, e} <= RanksIn(cards) && Distinct([a, b, c, d, e])
    ensures pick <= cards && |pick| == 5 && {a, b, c, d, e} <= RanksIn(pick)
  {
    var ranks := [a, b, c, d, e];
    forall i | 0 <= i < 5 ensures Count(cards, ranks[i]) >= 1 { CountPositive(cards, ranks[i]); }
    pick := Gather(cards, ranks, [1, 1, 1, 1, 1]);
    assert Total([1, 1, 1, 1, 1]) == 5 by { TotalOf(1, 1, 1, 1, 1); }
    forall i | 0 <= i < 5 ensures ranks[i] in RanksIn(pick) { CountPositive(pick, ranks[i]); }
    assert ranks[0] == a && ranks[1] == b && ranks[2] == c && ranks[3] == d && ranks[4] == e;
  }

  lemma {:induction false} TotalOf(a: nat, b: nat, c: nat, d: nat, e: nat)
    ensures Total([a, b, c, d, e]) == a + b + c + d + e
    ensures Total([a, b, c, d]) == a + b + c + d
    ensures Total([a, b, c]) == a + b + c
    ensures Total([a, b]) == a + b
  {
    TotalCons(a, [b, c, d, e]); TotalCons(b, [c, d, e]); TotalCons(c, [d, e]); TotalCons(d, [e]); TotalCons(e, []);
    TotalCons(a, [b, c, d]); TotalCons(b, [c, d]); TotalCons(c, [d]); TotalCons(d, []);
    TotalCons(a, [b, c]); TotalCons(b, [c]); TotalCons(c, []);
    TotalCons(a, [b]); TotalCons(b, []);
  }

  lemma {:induction false} TotalCons(x: nat, rest: seq<nat>)
    ensures Total([x] + rest) == x + Total(rest)
  {
    assert ([x] + rest)[1..] == rest;
  }

  lemma {:induction false} GatherStraight(cards: set<Card>, high: nat) returns (pick: set<Card>)
    requires StraightAt(RanksIn(cards), high)
    ensures pick <= cards && |pick| == 5 && StraightAt(RanksIn(pick), high)
  {
    if high == 3 {
      pick := GatherFive(cards, 12, 0, 1, 2, 3);
    } else {
      pick := GatherFive(cards, high - 4, high - 3, high - 2, high - 1, high);
    }
  }

  lemma {:induction false} SupportedByFive(cards: set<Card>, v: EvalResult) returns (five: set<Card>)
    requires Supports(cards, v)
    ensures five <= cards && |five| == 5 && Supports(five, v)
  {
    match v.category {
      case StraightFlush =>
        var s :| s < 4 && StraightAt(RanksIn(OfSuit(cards, s)), v.r0);
        five := GatherStraight(OfSuit(cards, s), v.r0);
        assert OfSuit(five, s) == five;
      case Flush =>
        var s :| s < 4 && {v.r0, v.r1, v.r2, v.r3, v.r4} <= RanksIn(OfSuit(cards, s));
        five := GatherFive(OfSuit(cards, s), v.r0, v.r1, v.r2, v.r3, v.r4);
        assert OfSuit(five, s) == five;
      case Straight =>
        five := GatherStraight(cards, v.r0);
      case HighCard =>
        five := GatherFive(cards, v.r0, v.r1, v.r2, v.r3, v.r4);
      case _ =>
        five := MultipleByFive(cards, v);
    }
  }

  lemma {:induction false} MultipleByFive(cards: set<Card>, v: EvalResult) returns (five: set<Card>)
    requires Supports(cards, v)
    requires v.category in {FourOfAKind, FullHouse, ThreeOfAKind, TwoPair, OnePair}
    ensures five <= cards && |five| == 5 && Supports(five, v)
  {
    CountPositive(cards, v.r1); CountPositive(cards, v.r2); CountPositive(cards, v.r3);
    match v.category {
      case FourOfAKind =>
        TotalOf(4, 1, 0, 0, 0);
        five := GatherRanks(cards, [v.r0, v.r1], [4, 1]);
      case FullHouse =>
        TotalOf(3, 2, 0, 0, 0);
        five := GatherRanks(cards, [v.r0, v.r1], [3, 2]);
      case ThreeOfAKind =>
        TotalOf(3, 1, 1, 0, 0);
        five := GatherRanks(cards, [v.r0, v.r1, v.r2], [3, 1, 1]);
      case TwoPair =>
        TotalOf(2, 2, 1, 0, 0);
        five := GatherRanks(cards, [v.r0, v.r1, v.r2], [2, 2, 1]);
      case OnePair =>
        TotalOf(2, 1, 1, 1, 0);
        five := GatherRanks(cards, [v.r0, v.r1, v.r2, v.r3], [2, 1, 1, 1]);
    }
    CountPositive(five, v.r1); CountPositive(five, v.r2); CountPositive(five, v.r3);
  }

  /** Gather, with the counts of the picked cards spelled out rank by rank. */
  lemma {:induction false} GatherRanks(cards: set<Card>, ranks: seq<nat>, need: seq<nat>) returns (pick: set<Card>)
    requires |ranks| == |need| && 2 <= |ranks| && Distinct(ranks)
    requires forall i :: 0 <= i < |ranks| ==> Count(cards, ranks[i]) >= need[i] >= 1
    ensures pick <= cards && |pick| == Total(need)
    ensures forall i :: 0 <= i < |ranks| ==> Count(pick, ranks[i]) >= need[i] && ranks[i] in RanksIn(pick)
  {
    pick := Gather(cards, ranks, need);
    forall i | 0 <= i < |ranks| ensures ranks[i] in RanksIn(pick) { CountPositive(pick, ranks[i]); }
  }

  /** The best result over a set is the largest best result over its five-card subsets. */
  lemma {:induction false} BestIsMaxOverFives(cards: set<Card>, v: EvalResult)
    requires IsBest(cards, v)
    ensures forall five, w :: five <= cards && |five| == 5 && IsBest(five, w) ==> w.Value() <= v.Value()
    ensures exists five :: five <= cards && |five| == 5 && IsBest(five, v)
  {
    forall five, w | five <= cards && |five| == 5 && IsBest(five, w)
      ensures w.Value() <= v.Value()
    {
      SupportMonotone(five, cards, w);
    }
    var five := SupportedByFive(cards, v);
    forall w | Supports(five, w) ensures w.Value() <= v.Value() {
      SupportMonotone(five, cards, w);
    }
    assert IsBest(five, v);
  }
}
