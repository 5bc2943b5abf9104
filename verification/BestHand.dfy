/** BestFromCards and Evaluate of phase12/src/showdown_evaluator.cpp: the best five cards of a
    list, by the fast evaluator for seven cards and by mask enumeration otherwise. */
module BestHand {
  import opened Cards
  import opened HandRanking
  import opened BestHands
  import opened Evaluator
  import opened Enumeration

  /** The 21 five-card index choices of the seven-card path. */
  const COMBOS21: seq<seq<nat>> := [
    [0, 1, 2, 3, 4], [0, 1, 2, 3, 5], [0, 1, 2, 3, 6], [0, 1, 2, 4, 5], [0, 1, 2, 4, 6],
    [0, 1, 2, 5, 6], [0, 1, 3, 4, 5], [0, 1, 3, 4, 6], [0, 1, 3, 5, 6], [0, 1, 4, 5, 6],
    [0, 2, 3, 4, 5], [0, 2, 3, 4, 6], [0, 2, 3, 5, 6], [0, 2, 4, 5, 6], [0, 3, 4, 5, 6],
    [1, 2, 3, 4, 5], [1, 2, 3, 4, 6], [1, 2, 3, 5, 6], [1, 2, 4, 5, 6], [1, 3, 4, 5, 6],
    [2, 3, 4, 5, 6]]

  lemma {:induction false} Combos21Increasing(c: nat)
    requires c < 21
    ensures |COMBOS21| == 21 && |COMBOS21[c]| == 5 && Increasing(COMBOS21[c], 7)
  {
  }

  /** The table misses no choice. */
  lemma {:induction false} Combos21Complete(ps: seq<nat>) returns (c: nat)
    requires |ps| == 5 && Increasing(ps, 7)
    ensures c < 21 && COMBOS21[c] == ps
  {
    assert ps == [ps[0], ps[1], ps[2], ps[3], ps[4]];
    c := if ps[0] == 2 then 20
         else if ps[0] == 1 then (if ps[1] == 3 then 19 else if ps[2] == 4 then 18 else if ps[3] == 5 then 17
                                  else if ps[4] == 6 then 16 else 15)
         else if ps[1] == 3 then 14
         else if ps[1] == 2 then (if ps[2] == 4 then 13 else if ps[3] == 5 then 12 else if ps[4] == 6 then 11 else 10)
         else if ps[2] == 4 then 9
         else if ps[2] == 3 then (if ps[3] == 5 then 8 else if ps[4] == 6 then 7 else 6)
         else if ps[3] == 5 then 5
         else if ps[3] == 4 then (if ps[4] == 6 then 4 else 3)
         else ps[4] - 4;
  }

  /** best_rank and best_cards. NO_CARD fills best_cards when no five cards were found. */
  const NO_CARD := 0xFF
  datatype Showing = Showing(rank: int, best: seq<nat>)

  /** The showing is worth the list's strength and its five cards, from the list, are worth that much. */
  ghost predicate Attains(all: seq<Card>, s: Showing) {
    exists five: seq<Card> ::
      && s.best == five && |five| == 5 && Distinct(five) && Elements(five) <= Elements(all)
      && s.rank == StrengthOf(five) == StrengthOf(all)
  }

  ghost function StrengthOf(cards: seq<Card>): nat {
    ListSize(cards);
    if |Elements(cards)| >= 5 then Strength(Elements(cards)) else 0
  }

  lemma {:induction false} StrengthIs(cards: seq<Card>, v: EvalResult)
    requires |cards| >= 5 && Distinct(cards) && IsBest(Elements(cards), v)
    ensures StrengthOf(cards) == v.Value()
  {
    DistinctSize(cards);
  }

  // ---------- seven cards ----------

  method BestFromSeven(all: seq<Card>) returns (s: Showing)
    requires |all| == 7 && Distinct(all)
    ensures Attains(all, s)
  {
    var eval := Evaluate7(all);
    var bestVal := eval.Value();
    StrengthIs(all, eval);
    BestIsMaxOverPositions(all, eval);
    ghost var ps :| |ps| == 5 && Increasing(ps, 7) && IsBest(Elements(Picks(all, ps)), eval);
    ghost var goal := Combos21Complete(ps);
    var c := 0;
    while c < 21
      invariant 0 <= c <= goal
    {
      Combos21Increasing(c);
      var sub := Picks(all, COMBOS21[c]);
      PicksDistinct(all, COMBOS21[c]);
      var e := Evaluate5(sub);
      if e.Value() == bestVal {
        StrengthIs(sub, e);
        return Showing(bestVal, sub);
      }
      assert c != goal by {
        if c == goal { BestIsUnique(Elements(sub), e, eval); }
      }
      c := c + 1;
    }
  }

  // ---------- any other number of cards ----------

  /** The cards at the ones of a mask, in order. */
  ghost function Chosen(all: seq<Card>, mask: seq<int>): (five: seq<Card>)
    requires |mask| == |all| && IsMask(mask)
    ensures |five| == Weight(mask)
  {
    if all == [] then [] else (if mask[0] == 1 then [all[0]] else []) + Chosen(all[1..], mask[1..])
  }

  lemma {:induction false} ChosenMembers(all: seq<Card>, mask: seq<int>)
    requires |mask| == |all| && IsMask(mask) && Distinct(all)
    ensures Distinct(Chosen(all, mask)) && Elements(Chosen(all, mask)) <= Elements(all)
  {
    if all != [] {
      ChosenMembers(all[1..], mask[1..]);
      assert Elements(all) == {all[0]} + Elements(all[1..]) by { assert all == [all[0]] + all[1..]; }
    }
  }

  lemma {:induction false} ChosenCons(c: Card, all: seq<Card>, x: int, mask: seq<int>)
    requires |mask| == |all| && IsMask(mask) && 0 <= x <= 1
    ensures IsMask([x] + mask) && Weight([x] + mask) == x + Weight(mask)
    ensures Elements(Chosen([c] + all, [x] + mask)) == (if x == 1 then {c} else {}) + Elements(Chosen(all, mask))
  {
    assert ([x] + mask)[1..] == mask && ([c] + all)[1..] == all;
  }

  /** The mask that chooses exactly the cards of a set. */
  lemma {:induction false} MaskFor(all: seq<Card>, F: set<Card>) returns (mask: seq<int>)
    requires F <= Elements(all)
    ensures |mask| == |all| && IsMask(mask) && Weight(mask) == |F| && Elements(Chosen(all, mask)) == F
  {
    if all == [] {
      mask := [];
      assert F == {};
    } else {
      var c, others := all[0], all[1..];
      assert all == [c] + others;
      assert F - {c} <= Elements(others);
      var rest := MaskFor(others, F - {c});
      if c in F {
        ChosenCons(c, others, 1, rest);
        mask := [1] + rest;
        assert F == {c} + (F - {c});
      } else {
        ChosenCons(c, others, 0, rest);
        mask := [0] + rest;
        assert F == F - {c};
      }
    }
  }

  /** sub[ci++] = all[i] for the positions whose mask entry is set. */
  method Collect(all: seq<Card>, mask: array<int>) returns (sub: seq<Card>)
    requires mask.Length == |all| && IsMask(mask[..]) && Weight(mask[..]) == 5
    ensures sub == Chosen(all, mask[..])
  {
    sub := [];
    var i := 0;
    while i < |all| && |sub| < 5
      invariant 0 <= i <= |all|
      invariant sub + Chosen(all[i..], mask[..][i..]) == Chosen(all, mask[..])
    {
      assert all[i..][1..] == all[i + 1..] && mask[..][i..][1..] == mask[..][i + 1..];
      if mask[i] != 0 {
        sub := sub + [all[i]];
      }
      i := i + 1;
    }
    assert sub == sub + Chosen(all[i..], mask[..][i..]);
  }

  /** best is the best of the hands chosen by the first i masks. */
  ghost predicate BestSoFar(all: seq<Card>, i: nat, best: seq<Card>, bestVal: int) {
    && i <= Choose(|all|, 5)
    && (if i > 0 then FiveWorth(all, best, bestVal) else bestVal == -1)
    && forall j :: 0 <= j < i ==> StrengthOf(Chosen(all, MaskAt(|all|, 5, j))) <= bestVal
  }

  /** Evaluate the hand one mask chooses. */
  method TryMask(all: seq<Card>, indices: array<int>, ghost i: nat, bestVal0: int, best0: seq<Card>)
    returns (bestVal: int, best: seq<Card>)
    requires |all| >= 5 && Distinct(all) && i < Choose(|all|, 5) && indices[..] == MaskAt(|all|, 5, i)
    requires BestSoFar(all, i, best0, bestVal0)
    ensures BestSoFar(all, i + 1, best, bestVal)
  {
    var sub := Collect(all, indices);
    ChosenMembers(all, indices[..]);
    var e := Evaluate5(sub);
    StrengthIs(sub, e);
    if e.Value() > bestVal0 {
      bestVal, best := e.Value(), sub;
    } else {
      bestVal, best := bestVal0, best0;
    }
  }

  /** Try every mask of five ones: the loop visits MaskAt(n, 5, 0), MaskAt(n, 5, 1), ... */
  method BestByMasks(all: seq<Card>) returns (s: Showing)
    requires |all| >= 5 && Distinct(all)
    ensures Attains(all, s)
  {
    var n := |all|;
    var indices := new int[n](i => if i < n - 5 then 0 else 1);
    FirstMask(n, 5);
    assert indices[..] == MaskAt(n, 5, 0);
    var bestVal: int, best: seq<Card> := -1, [];
    ghost var i := 0;
    var more := true;
    while more
      invariant BestSoFar(all, i, best, bestVal)
      invariant if more then i < Choose(n, 5) && indices[..] == MaskAt(n, 5, i) else i == Choose(n, 5)
      decreases Choose(n, 5) - i
    {
      bestVal, best := TryMask(all, indices, i, bestVal, best);
      more := NextPermutation(indices);
      Advance(n, i, more, indices[..]);
      i := i + 1;
    }
    MasksAttain(all, best, bestVal);
    s := Showing(bestVal, best);
  }

  /** Five of the listed cards, worth val. */
  ghost predicate FiveWorth(all: seq<Card>, five: seq<Card>, val: int) {
    |five| == 5 && Distinct(five) && Elements(five) <= Elements(all) && val == StrengthOf(five)
  }

  /** What the permutation step just taken says about the place in the order. */
  lemma {:induction false} Advance(n: nat, i: nat, more: bool, mask: seq<int>)
    requires i < Choose(n, 5)
    requires if more then IsNext(MaskAt(n, 5, i), mask) else IsLast(MaskAt(n, 5, i))
    ensures more ==> i + 1 < Choose(n, 5) && mask == MaskAt(n, 5, i + 1)
    ensures !more ==> i + 1 == Choose(n, 5)
  {
    SuccessorWalks(n, 5, i);
    if more {
      NextUnique(MaskAt(n, 5, i), mask, mask);
      if i + 1 < Choose(n, 5) { NextUnique(MaskAt(n, 5, i), mask, MaskAt(n, 5, i + 1)); }
    } else if i + 1 < Choose(n, 5) {
      NextUnique(MaskAt(n, 5, i), MaskAt(n, 5, i + 1), MaskAt(n, 5, i + 1));
    }
  }

  lemma {:induction false} BestMask(all: seq<Card>) returns (mask: seq<int>)
    requires |all| >= 5 && Distinct(all)
    ensures |mask| == |all| && IsMask(mask) && Weight(mask) == 5 && StrengthOf(Chosen(all, mask)) == StrengthOf(all)
  {
    DistinctSize(all);
    BestExists(Elements(all));
    var v :| IsBest(Elements(all), v);
    StrengthIs(all, v);
    BestIsMaxOverFives(Elements(all), v);
    var F :| F <= Elements(all) && |F| == 5 && IsBest(F, v);
    mask := MaskFor(all, F);
  }

  /** The largest strength over all masks is the strength of the whole list. */
  lemma {:induction false} MasksAttain(all: seq<Card>, best: seq<Card>, bestVal: int)
    requires |all| >= 5 && Distinct(all) && BestSoFar(all, Choose(|all|, 5), best, bestVal)
    ensures Attains(all, Showing(bestVal, best))
  {
    var mask := BestMask(all);
    var j := MaskRank(mask);
    assert MaskAt(|all|, 5, j) == mask;
    StrengthMonotone(best, all);
  }

  /** Five of the cards are never worth more than all of them. */
  lemma {:induction false} StrengthMonotone(five: seq<Card>, all: seq<Card>)
    requires Distinct(all) && |five| == 5 && Distinct(five) && Elements(five) <= Elements(all)
    ensures StrengthOf(five) <= StrengthOf(all)
  {
    DistinctSize(five);
    SubsetSize(Elements(five), Elements(all));
    BestExists(Elements(five));
    BestExists(Elements(all));
    var w :| IsBest(Elements(five), w);
    var v :| IsBest(Elements(all), v);
    SupportMonotone(Elements(five), Elements(all), w);
  }

  method BestFromCards(all: seq<Card>) returns (s: Showing)
    requires |all| >= 5 && Distinct(all)
    ensures Attains(all, s)
  {
    if |all| == 7 {
      s := BestFromSeven(all);
    } else {
      s := BestByMasks(all);
    }
  }

  /** The value the showdown compares hands by. */
  ghost function ShowdownRank(hole: seq<Card>, community: seq<Card>): int {
    if |hole| == 4 && |community| == 5 then -1
    else if |hole| + |community| < 5 then 0
    else StrengthOf(hole + community)
  }

  /** ShowdownEvaluator::Evaluate in a build without the Omaha tables. */
  method Evaluate(hole: seq<Card>, community: seq<Card>) returns (s: Showing)
    requires Distinct(hole + community)
    ensures s.rank == ShowdownRank(hole, community)
    ensures !(|hole| == 4 && |community| == 5) && |hole| + |community| >= 5 ==> Attains(hole + community, s)
  {
    var none := [NO_CARD, NO_CARD, NO_CARD, NO_CARD, NO_CARD];
    if |hole| == 4 && |community| == 5 {
      return Showing(-1, none);
    }
    var all := hole + community;
    if |all| < 5 {
      return Showing(0, none);
    }
    if |all| == 5 {
      var eval := Evaluate5(all);
      StrengthIs(all, eval);
      return Showing(eval.Value(), all);
    }
    s := BestFromCards(all);
  }
}
