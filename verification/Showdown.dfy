/** EvaluatePot of phase12/src/showdown_evaluator.cpp and the payout of GameState::DoShowdown. */
module Showdown {
  import opened Cards
  import opened Seats
  import opened BestHand
  import PM = PotManager

  datatype Eval = Eval(rank: int, id: int)
  datatype Award = Award(id: int, amount: Chips, rank: int)

  type HoleMap = map<int, seq<Card>>

  /** The eligible players that hold cards, with the value of their hands. */
  ghost function EvalsOf(eligible: seq<int>, holes: HoleMap, community: seq<Card>): seq<Eval> {
    if eligible == [] then []
    else
      var n := |eligible| - 1;
      EvalsOf(eligible[..n], holes, community) +
      (if eligible[n] in holes then [Eval(ShowdownRank(holes[eligible[n]], community), eligible[n])] else [])
  }

  predicate AtLeast(a: Eval, b: Eval) { a.rank >= b.rank }

  predicate SortedDown(es: seq<Eval>) {
    forall i, j {:trigger AtLeast(es[i], es[j])} :: 0 <= i < j < |es| ==> AtLeast(es[i], es[j])
  }

  lemma {:induction false} PrependSorted(e: Eval, es: seq<Eval>)
    requires SortedDown(es) && (es != [] ==> e.rank >= es[0].rank)
    ensures SortedDown([e] + es)
  {
    var r := [e] + es;
    forall i, j | 0 <= i < j < |r| ensures AtLeast(r[i], r[j]) {
      assert j > 1 ==> AtLeast(es[0], es[j - 1]);
      assert i > 0 ==> AtLeast(es[i - 1], es[j - 1]);
    }
  }

  /** std::sort by descending rank; equal ranks keep their order (unspecified in the source). */
  function InsertDown(e: Eval, es: seq<Eval>): seq<Eval> {
    if es == [] || e.rank > es[0].rank then [e] + es else [es[0]] + InsertDown(e, es[1..])
  }

  function SortDown(es: seq<Eval>): seq<Eval> {
    if es == [] then [] else InsertDown(es[|es| - 1], SortDown(es[..|es| - 1]))
  }

  lemma {:induction false} InsertDownSorts(e: Eval, es: seq<Eval>)
    requires SortedDown(es)
    ensures var r := InsertDown(e, es);
      && SortedDown(r) && multiset(r) == multiset(es) + multiset{e}
      && r != [] && (r[0] == e || (es != [] && r[0] == es[0]))
  {
    if es == [] || e.rank > es[0].rank {
      PrependSorted(e, es);
    } else {
      var rest := es[1..];
      assert es == [es[0]] + rest;
      forall i, j | 0 <= i < j < |rest| ensures AtLeast(rest[i], rest[j]) {
        assert AtLeast(es[i + 1], es[j + 1]);
      }
      InsertDownSorts(e, rest);
      assert rest != [] ==> AtLeast(es[0], es[1]);
      PrependSorted(es[0], InsertDown(e, rest));
    }
  }

  /** Sorting neither adds nor drops a hand. */
  lemma {:induction false} SortDownSorts(es: seq<Eval>)
    ensures SortedDown(SortDown(es)) && multiset(SortDown(es)) == multiset(es) && (SortDown(es) == [] <==> es == [])
  {
    if es != [] {
      var n := |es| - 1;
      assert es == es[..n] + [es[n]];
      SortDownSorts(es[..n]);
      InsertDownSorts(es[n], SortDown(es[..n]));
    }
  }

  /** The leading run of hands with the given rank. */
  function Leaders(es: seq<Eval>, best: int): (ws: seq<Eval>)
    ensures |ws| <= |es| && ws == es[..|ws|]
    ensures forall i :: 0 <= i < |ws| ==> ws[i].rank == best
    ensures |ws| < |es| ==> es[|ws|].rank != best
  {
    if es == [] || es[0].rank != best then []
    else
      assert es == [es[0]] + es[1..];
      [es[0]] + Leaders(es[1..], best)
  }

  /** Whole chips, the remainder one chip each to the first winners. */
  function Split(winners: seq<Eval>, pot: Chips): (awards: seq<Award>)
    requires winners != []
    ensures |awards| == |winners|
  {
    seq(|winners|, i requires 0 <= i < |winners| =>
      Award(winners[i].id, pot / |winners| + (if i < pot % |winners| then 1 else 0), winners[i].rank))
  }

  ghost function AwardsFor(eligible: seq<int>, holes: HoleMap, community: seq<Card>, pot: Chips): seq<Award> {
    var evals := SortDown(EvalsOf(eligible, holes, community));
    if eligible == [] || pot <= 0 || evals == [] then []
    else Split(Leaders(evals, evals[0].rank), pot)
  }

  function Paid(awards: seq<Award>): Chips {
    if awards == [] then 0 else Paid(awards[..|awards| - 1]) + awards[|awards| - 1].amount
  }

  // ---------- what the split guarantees ----------

  lemma {:induction false} SplitPrefix(winners: seq<Eval>, pot: Chips, k: nat)
    requires winners != [] && pot >= 0 && k <= |winners|
    ensures var rem := pot % |winners|;
      Paid(Split(winners, pot)[..k]) == k * (pot / |winners|) + (if k < rem then k else rem)
  {
    var awards := Split(winners, pot);
    if k > 0 {
      SplitPrefix(winners, pot, k - 1);
      assert awards[..k][..k - 1] == awards[..k - 1];
      var base := pot / |winners|;
      assert k * base == (k - 1) * base + base;
    }
  }

  /** No share is negative, and no two differ by more than one chip. */
  ghost predicate FairShares(awards: seq<Award>) {
    forall i, j {:trigger WithinOne(awards[i], awards[j])} ::
      0 <= i < |awards| && 0 <= j < |awards| ==> WithinOne(awards[i], awards[j])
  }

  predicate WithinOne(a: Award, b: Award) { 0 <= a.amount <= b.amount + 1 }

  lemma {:induction false} SplitIsExact(winners: seq<Eval>, pot: Chips)
    requires winners != [] && pot >= 0
    ensures Paid(Split(winners, pot)) == pot && FairShares(Split(winners, pot))
  {
    var awards, base := Split(winners, pot), pot / |winners|;
    SplitPrefix(winners, pot, |winners|);
    assert awards[..|winners|] == awards;
    assert base >= 0;
    assert forall i :: 0 <= i < |awards| ==> awards[i].amount == base || awards[i].amount == base + 1;
  }

  lemma {:induction false} EvalsMembers(eligible: seq<int>, holes: HoleMap, community: seq<Card>)
    ensures forall e :: e in EvalsOf(eligible, holes, community) <==>
      e.id in eligible && e.id in holes && e.rank == ShowdownRank(holes[e.id], community)
    ensures EvalsOf(eligible, holes, community) == [] <==> forall id :: id in eligible ==> id !in holes
    ensures |EvalsOf(eligible, holes, community)| <= |eligible|
  {
    if eligible != [] {
      var n := |eligible| - 1;
      EvalsMembers(eligible[..n], holes, community);
      assert eligible == eligible[..n] + [eligible[n]];
      var e := Eval(if eligible[n] in holes then ShowdownRank(holes[eligible[n]], community) else 0, eligible[n]);
      if eligible[n] in holes {
        assert e in EvalsOf(eligible, holes, community);
      }
    }
  }

  ghost predicate Awarded(awards: seq<Award>, id: int) {
    exists i :: 0 <= i < |awards| && awards[i].id == id
  }

  /** Eligible, dealt, and nobody eligible and dealt has a better hand. */
  ghost predicate IsTop(eligible: seq<int>, holes: HoleMap, community: seq<Card>, id: int) {
    && id in eligible && id in holes
    && forall other :: other in eligible && other in holes ==>
         ShowdownRank(holes[other], community) <= ShowdownRank(holes[id], community)
  }

  ghost predicate SomeDealt(eligible: seq<int>, holes: HoleMap) {
    exists id :: id in eligible && id in holes
  }

  /** A sorted hand at least as good as the best is among the leading run. */
  lemma {:induction false} LeadersReach(evals: seq<Eval>, best: int, i: nat)
    requires SortedDown(evals) && i < |evals| && best <= evals[i].rank && evals[0].rank <= best
    ensures evals[i] in Leaders(evals, best)
  {
    assert i > 0 ==> AtLeast(evals[0], evals[i]);
    var rest := evals[1..];
    assert evals == [evals[0]] + rest;
    if i > 0 {
      forall j, k | 0 <= j < k < |rest| ensures AtLeast(rest[j], rest[k]) {
        assert AtLeast(evals[j + 1], evals[k + 1]);
      }
      assert AtLeast(evals[0], evals[1]);
      LeadersReach(rest, best, i - 1);
    }
  }

  lemma {:induction false} LeadersAreBest(evals: seq<Eval>)
    requires SortedDown(evals) && evals != []
    ensures var ws := Leaders(evals, evals[0].rank);
      && ws != [] && (forall e :: e in ws ==> e in evals && e.rank == evals[0].rank)
      && forall e :: e in evals && e.rank >= evals[0].rank ==> e in ws
  {
    var ws := Leaders(evals, evals[0].rank);
    forall e | e in evals && e.rank >= evals[0].rank ensures e in ws {
      var i :| 0 <= i < |evals| && evals[i] == e;
      LeadersReach(evals, evals[0].rank, i);
    }
  }

  /** The evaluated hands in payout order. */
  ghost function Ranked(eligible: seq<int>, holes: HoleMap, community: seq<Card>): seq<Eval> {
    SortDown(EvalsOf(eligible, holes, community))
  }

  lemma {:induction false} RankedMembers(eligible: seq<int>, holes: HoleMap, community: seq<Card>, e: Eval)
    ensures e in Ranked(eligible, holes, community) <==>
      e.id in eligible && e.id in holes && e.rank == ShowdownRank(holes[e.id], community)
  {
    EvalsMembers(eligible, holes, community);
    var raw, evals := EvalsOf(eligible, holes, community), Ranked(eligible, holes, community);
    SortDownSorts(raw);
    assert e in evals <==> e in multiset(evals);
    assert e in raw <==> e in multiset(raw);
  }

  /** The winners are exactly the players with the best hand among the eligible ones. */
  lemma {:induction false} WinnersAreTop(eligible: seq<int>, holes: HoleMap, community: seq<Card>, id: int)
    requires Ranked(eligible, holes, community) != []
    ensures var evals := Ranked(eligible, holes, community);
      IsTop(eligible, holes, community, id) <==> exists e :: e in Leaders(evals, evals[0].rank) && e.id == id
  {
    var evals := Ranked(eligible, holes, community);
    SortDownSorts(EvalsOf(eligible, holes, community));
    var first, ws := evals[0], Leaders(evals, evals[0].rank);
    LeadersAreBest(evals);
    assert first in evals;
    RankedMembers(eligible, holes, community, first);
    if IsTop(eligible, holes, community, id) {
      var e := Eval(ShowdownRank(holes[id], community), id);
      RankedMembers(eligible, holes, community, e);
      assert e in ws;
    }
    if e :| e in ws && e.id == id {
      RankedMembers(eligible, holes, community, e);
      forall other | other in eligible && other in holes
        ensures ShowdownRank(holes[other], community) <= e.rank
      {
        RankedMembers(eligible, holes, community, Eval(ShowdownRank(holes[other], community), other));
      }
    }
  }

  /** A pot is paid out whole exactly when some eligible player holds cards, in shares within one
      chip of each other. */
  lemma {:induction false} PotPaidWhole(eligible: seq<int>, holes: HoleMap, community: seq<Card>, pot: Chips)
    requires pot > 0
    ensures Paid(AwardsFor(eligible, holes, community, pot)) == (if SomeDealt(eligible, holes) then pot else 0)
    ensures FairShares(AwardsFor(eligible, holes, community, pot))
  {
    AwardsShape(eligible, holes, community, pot);
    var evals := Ranked(eligible, holes, community);
    if SomeDealt(eligible, holes) {
      SplitIsExact(Leaders(evals, evals[0].rank), pot);
    }
  }

  lemma {:induction false} AwardsShape(eligible: seq<int>, holes: HoleMap, community: seq<Card>, pot: Chips)
    requires pot > 0
    ensures var evals := Ranked(eligible, holes, community);
      if SomeDealt(eligible, holes)
      then evals != [] && AwardsFor(eligible, holes, community, pot) == Split(Leaders(evals, evals[0].rank), pot)
      else evals == [] && AwardsFor(eligible, holes, community, pot) == []
  {
    EvalsMembers(eligible, holes, community);
    SortDownSorts(EvalsOf(eligible, holes, community));
  }

  /** Exactly the players with the best eligible hand share the pot. */
  lemma {:induction false} PotPaidToBest(eligible: seq<int>, holes: HoleMap, community: seq<Card>, pot: Chips, id: int)
    requires pot > 0
    ensures Awarded(AwardsFor(eligible, holes, community, pot), id) <==> IsTop(eligible, holes, community, id)
  {
    EvalsMembers(eligible, holes, community);
    SortDownSorts(EvalsOf(eligible, holes, community));
    var evals := Ranked(eligible, holes, community);
    if evals != [] {
      var winners := Leaders(evals, evals[0].rank);
      WinnersAreTop(eligible, holes, community, id);
      AwardedAreWinners(winners, pot, id);
      assert AwardsFor(eligible, holes, community, pot) == Split(winners, pot);
    }
  }

  lemma {:induction false} AwardedAreWinners(winners: seq<Eval>, pot: Chips, id: int)
    requires winners != []
    ensures Awarded(Split(winners, pot), id) <==> exists e :: e in winners && e.id == id
  {
    var awards := Split(winners, pot);
    if i :| 0 <= i < |awards| && awards[i].id == id {
      assert winners[i] in winners && winners[i].id == id;
    }
    if e :| e in winners && e.id == id {
      var i :| 0 <= i < |winners| && winners[i] == e;
      assert awards[i].id == id;
    }
  }

  // ---------- EvaluatePot ----------

  /** The hands of the eligible players that hold cards. */
  method EvaluateHands(eligible: seq<int>, holes: HoleMap, community: seq<Card>) returns (evals: seq<Eval>)
    requires forall id :: id in eligible && id in holes ==> Distinct(holes[id] + community)
    ensures evals == EvalsOf(eligible, holes, community)
  {
    evals := [];
    var i := 0;
    while i < |eligible|
      invariant 0 <= i <= |eligible| && evals == EvalsOf(eligible[..i], holes, community)
    {
      assert eligible[..i + 1][..i] == eligible[..i];
      if eligible[i] in holes {
        var id := eligible[i];
        assert id in eligible && Distinct(holes[id] + community);
        var res := Evaluate(holes[id], community);
        evals := evals + [Eval(res.rank, id)];
      }
      i := i + 1;
    }
    assert eligible[..i] == eligible;
  }

  /** The ids tied for the best hand: the loop stops at the first lesser one. */
  method FindWinners(evals: seq<Eval>) returns (winners: seq<int>)
    requires evals != []
    ensures var ws := Leaders(evals, evals[0].rank); ws != [] && winners == IdsOf(ws)
  {
    var best := evals[0].rank;
    winners := [];
    var i := 0;
    ghost var ws := Leaders(evals, best);
    while i < |evals| && evals[i].rank == best
      invariant 0 <= i <= |ws| && winners == IdsOf(ws[..i])
    {
      assert ws[..i + 1] == ws[..i] + [ws[i]];
      winners := winners + [evals[i].id];
      i := i + 1;
    }
    assert ws[..i] == ws;
  }

  function IdsOf(es: seq<Eval>): (ids: seq<int>)
    ensures |ids| == |es|
  {
    seq(|es|, i requires 0 <= i < |es| => es[i].id)
  }

  /** The rank of the first evaluated hand of a player. */
  method RankOf(evals: seq<Eval>, id: int) returns (rank: int)
    requires exists e :: e in evals && e.id == id
    ensures Eval(rank, id) in evals
  {
    var i := 0;
    while evals[i].id != id
      invariant 0 <= i < |evals| && forall k :: 0 <= k < i ==> evals[k].id != id
      decreases |evals| - i
    {
      i := i + 1;
    }
    rank := evals[i].rank;
  }

  /** Exact split of the pot among the winners. */
  method SplitPot(evals: seq<Eval>, pot: Chips) returns (results: seq<Award>)
    requires evals != [] && forall a, b :: a in evals && b in evals && a.id == b.id ==> a == b
    ensures results == Split(Leaders(evals, evals[0].rank), pot)
  {
    var winners := FindWinners(evals);
    ghost var ws := Leaders(evals, evals[0].rank);
    var base, remainder := pot / |winners|, pot % |winners|;
    results := [];
    var wi := 0;
    while wi < |winners|
      invariant 0 <= wi <= |winners| && results == Split(ws, pot)[..wi]
    {
      assert ws[wi] in evals && ws[wi].id == winners[wi];
      var rank := RankOf(evals, winners[wi]);
      assert Eval(rank, winners[wi]) == ws[wi];
      results := results + [Award(winners[wi], base + (if wi < remainder then 1 else 0), rank)];
      wi := wi + 1;
    }
    assert Split(ws, pot)[..wi] == Split(ws, pot);
  }

  method EvaluatePot(eligible: seq<int>, holes: HoleMap, community: seq<Card>, pot: Chips) returns (results: seq<Award>)
    requires forall id :: id in eligible && id in holes ==> Distinct(holes[id] + community)
    ensures results == AwardsFor(eligible, holes, community, pot)
  {
    if eligible == [] || pot <= 0 { return []; }
    var evals := EvaluateHands(eligible, holes, community);
    if evals == [] { return []; }
    SortDownSorts(evals);
    evals := SortDown(evals);
    forall a, b | a in evals && b in evals && a.id == b.id ensures a == b {
      RankedMembers(eligible, holes, community, a);
      RankedMembers(eligible, holes, community, b);
    }
    results := SplitPot(evals, pot);
  }

  // ---------- the payout loop ----------

  /** p.Receive(amount) for every seat with the award's id. */
  function PayOne(seats: seq<Seat>, a: Award): (paid: seq<Seat>)
    ensures |paid| == |seats|
  {
    seq(|seats|, i requires 0 <= i < |seats| => if seats[i].id == a.id then seats[i].AfterReceive(a.amount) else seats[i])
  }

  function PayAll(seats: seq<Seat>, awards: seq<Award>): (paid: seq<Seat>)
    ensures |paid| == |seats|
  {
    if awards == [] then seats else PayOne(PayAll(seats, awards[..|awards| - 1]), awards[|awards| - 1])
  }

  /** Every id held by at most one seat, and some seat. */
  ghost predicate HeldOnce(seats: seq<Seat>, id: int) {
    exists i :: 0 <= i < |seats| && seats[i].id == id && forall j :: 0 <= j < |seats| && seats[j].id == id ==> j == i
  }

  lemma {:induction false} PayOneAdds(seats: seq<Seat>, a: Award)
    requires HeldOnce(seats, a.id) && a.amount >= 0
    ensures Sum(PayOne(seats, a), ChipsOf) == Sum(seats, ChipsOf) + a.amount
  {
    var i :| 0 <= i < |seats| && seats[i].id == a.id && forall j :: 0 <= j < |seats| && seats[j].id == a.id ==> j == i;
    assert PayOne(seats, a) == seats[i := seats[i].AfterReceive(a.amount)];
    SumUpdate(seats, i, seats[i].AfterReceive(a.amount), ChipsOf);
  }

  /** Payouts change nothing but chips. */
  lemma {:induction false} PayAllKeeps(seats: seq<Seat>, awards: seq<Award>)
    ensures forall i :: 0 <= i < |seats| ==>
      PayAll(seats, awards)[i] == seats[i].(chips := PayAll(seats, awards)[i].chips)
      && PayAll(seats, awards)[i].chips >= seats[i].chips
  {
    if awards != [] { PayAllKeeps(seats, awards[..|awards| - 1]); }
  }

  lemma {:induction false} PayAllAdds(seats: seq<Seat>, awards: seq<Award>)
    requires forall k :: 0 <= k < |awards| ==> HeldOnce(seats, awards[k].id) && awards[k].amount >= 0
    ensures Sum(PayAll(seats, awards), ChipsOf) == Sum(seats, ChipsOf) + Paid(awards)
  {
    if awards != [] {
      var n := |awards| - 1;
      var before := PayAll(seats, awards[..n]);
      PayAllAdds(seats, awards[..n]);
      PayAllKeeps(seats, awards[..n]);
      assert forall i :: 0 <= i < |seats| ==> before[i].id == seats[i].id;
      assert HeldOnce(before, awards[n].id) by {
        var i :| 0 <= i < |seats| && seats[i].id == awards[n].id
          && forall j :: 0 <= j < |seats| && seats[j].id == awards[n].id ==> j == i;
        assert before[i].id == awards[n].id;
      }
      PayOneAdds(before, awards[n]);
    }
  }

  // ---------- all pots of a hand ----------

  ghost function AwardsOfPots(pots: seq<PM.Pot>, holes: HoleMap, community: seq<Card>): seq<Award> {
    if pots == [] then []
    else
      AwardsOfPots(pots[..|pots| - 1], holes, community)
      + AwardsFor(pots[|pots| - 1].eligible, holes, community, pots[|pots| - 1].amount)
  }
}
