/** Who is paid what at a showdown: seat by seat and pot by pot, in terms of the cards each player
    holds. */
module Settlement {
  import opened Arithmetic
  import opened Cards
  import opened Seats
  import opened HandRanking
  import opened BestHand
  import opened Showdown
  import opened HandSpec
  import opened Payout
  import PM = PotManager

  // ---------- what an id is awarded ----------

  /** The sum of the awards carrying an id. */
  function AwardedTo(awards: seq<Award>, id: int): Chips {
    if awards == [] then 0
    else
      var last := awards[|awards| - 1];
      AwardedTo(awards[..|awards| - 1], id) + if last.id == id then last.amount else 0
  }

  lemma {:induction false} AwardedAppend(a: seq<Award>, b: seq<Award>, id: int)
    ensures AwardedTo(a + b, id) == AwardedTo(a, id) + AwardedTo(b, id)
  {
    if b == [] {
      assert a + b == a;
    } else {
      var n := |b| - 1;
      AwardedAppend(a, b[..n], id);
      assert (a + b)[..|a + b| - 1] == a + b[..n];
    }
  }

  /** Nobody is awarded anything by awards to others. */
  lemma {:induction false} NotAwarded(awards: seq<Award>, id: int)
    requires !Awarded(awards, id)
    ensures AwardedTo(awards, id) == 0
  {
    if awards != [] {
      assert awards[|awards| - 1].id != id;
      NotAwarded(awards[..|awards| - 1], id);
    }
  }

  /** With one award for the id, that is all there is. */
  lemma {:induction false} AwardedOnce(awards: seq<Award>, k: nat)
    requires k < |awards| && forall j :: 0 <= j < |awards| && j != k ==> awards[j].id != awards[k].id
    ensures AwardedTo(awards, awards[k].id) == awards[k].amount
  {
    var n := |awards| - 1;
    if k == n {
      NotAwarded(awards[..n], awards[k].id);
    } else {
      AwardedOnce(awards[..n], k);
    }
  }

  // ---------- a seat receives its awards ----------

  lemma {:induction false} PaidItsAwards(seats: seq<Seat>, awards: seq<Award>, i: nat)
    requires i < |seats| && forall k :: 0 <= k < |awards| ==> awards[k].amount >= 0
    ensures PayAll(seats, awards)[i] == seats[i].(chips := seats[i].chips + AwardedTo(awards, seats[i].id))
  {
    if awards != [] { PaidItsAwards(seats, awards[..|awards| - 1], i); }
  }

  /** After a showdown every seat has what it had behind, and the awards carrying its id. */
  lemma {:induction false} SeatReceives(t: Table, i: nat)
    requires IdsApart(t.seats) && StakesOk(t.seats) && i < |t.seats|
    ensures DoShowdown(t).seats[i].chips == t.seats[i].chips + AwardedTo(Awards(t), t.seats[i].id)
    ensures t.seats[i].state == Empty ==> DoShowdown(t).seats[i].chips == t.seats[i].chips
  {
    AwardsHeldOnce(t);
    PaidItsAwards(t.seats, Awards(t), i);
    EmptySeatsUnpaid(t);
  }

  // ---------- one pot ----------

  lemma {:induction false} HoleIsOwn(seats: seq<Seat>, i: nat)
    requires i < |seats| && seats[i].hole.Dealt?
    requires forall j :: 0 <= j < |seats| && j != i && seats[j].hole.Dealt? ==> seats[j].id != seats[i].id
    ensures seats[i].id in HolesOf(seats) && HolesOf(seats)[seats[i].id] == [seats[i].hole.card1, seats[i].hole.card2]
  {
    var n := |seats| - 1;
    if i < n { HoleIsOwn(seats[..n], i); }
  }

  /** No two hands evaluated for a pot belong to one player. */
  ghost predicate OneEach(es: seq<Eval>) {
    forall i, j :: 0 <= i < j < |es| ==> es[i].id != es[j].id
  }

  lemma {:induction false} EvalsOneEach(eligible: seq<int>, holes: HoleMap, community: seq<Card>)
    requires forall i, j :: 0 <= i < j < |eligible| ==> eligible[i] != eligible[j]
    ensures OneEach(EvalsOf(eligible, holes, community))
  {
    if eligible != [] {
      var n := |eligible| - 1;
      EvalsOneEach(eligible[..n], holes, community);
      EvalsMembers(eligible[..n], holes, community);
      var rest := EvalsOf(eligible[..n], holes, community);
      forall i | 0 <= i < |rest| ensures rest[i].id != eligible[n] {
        assert rest[i] in rest;
      }
    }
  }

  lemma {:induction false} InsertOneEach(e: Eval, es: seq<Eval>)
    requires OneEach(es) && forall i :: 0 <= i < |es| ==> es[i].id != e.id
    ensures OneEach(InsertDown(e, es))
    ensures forall x :: x in InsertDown(e, es) <==> x == e || x in es
  {
    if es != [] && e.rank <= es[0].rank {
      InsertOneEach(e, es[1..]);
      var rest := InsertDown(e, es[1..]);
      forall i | 0 <= i < |rest| ensures rest[i].id != es[0].id {
        assert rest[i] in rest;
      }
      assert es == [es[0]] + es[1..];
    }
  }

  lemma {:induction false} SortOneEach(es: seq<Eval>)
    requires OneEach(es)
    ensures OneEach(SortDown(es)) && forall x :: x in SortDown(es) <==> x in es
  {
    if es != [] {
      var n := |es| - 1;
      SortOneEach(es[..n]);
      var rest := SortDown(es[..n]);
      forall i | 0 <= i < |rest| ensures rest[i].id != es[n].id {
        assert rest[i] in rest;
      }
      InsertOneEach(es[n], rest);
    }
  }

  /** Each winner of a pot has one award in it. */
  lemma {:induction false} OneAwardEach(eligible: seq<int>, holes: HoleMap, community: seq<Card>, pot: Chips)
    requires pot > 0 && forall i, j :: 0 <= i < j < |eligible| ==> eligible[i] != eligible[j]
    ensures var awards := AwardsFor(eligible, holes, community, pot);
      forall i, j :: 0 <= i < j < |awards| ==> awards[i].id != awards[j].id
  {
    EvalsOneEach(eligible, holes, community);
    SortOneEach(EvalsOf(eligible, holes, community));
    AwardsShape(eligible, holes, community, pot);
  }

  // ---------- who has the odd chips ----------

  /** One id comes before another in the list. */
  ghost predicate Ahead(ids: seq<int>, a: int, b: int) {
    exists p: nat, q: nat :: p < q < |ids| && ids[p] == a && ids[q] == b
  }

  ghost predicate RankedAhead(es: seq<Eval>, a: Eval, b: Eval) {
    exists p: nat, q: nat :: p < q < |es| && es[p] == a && es[q] == b
  }

  /** Every two of the list stand one ahead of the other in the other list. */
  ghost predicate Follow(es: seq<Eval>, ranked: seq<Eval>) {
    forall i: nat, j: nat {:trigger RankedAhead(es, ranked[i], ranked[j])} ::
      i < j < |ranked| && ranked[i].rank == ranked[j].rank ==> RankedAhead(es, ranked[i], ranked[j])
  }

  lemma {:induction false} AheadIn(es: seq<Eval>, e: Eval, a: Eval, b: Eval)
    requires (a in es && b == e) || RankedAhead(es, a, b)
    ensures RankedAhead(es + [e], a, b)
  {
    if RankedAhead(es, a, b) {
      var p: nat, q: nat :| p < q < |es| && es[p] == a && es[q] == b;
      assert (es + [e])[p] == a && (es + [e])[q] == b;
    } else {
      var p :| 0 <= p < |es| && es[p] == a;
      assert (es + [e])[p] == a && (es + [e])[|es|] == e;
    }
  }

  /** Where the new one goes: behind all that rank with it. */
  lemma {:induction false} InsertedAt(e: Eval, es: seq<Eval>) returns (k: nat)
    requires forall i, j :: 0 <= i < j < |es| ==> es[i].rank >= es[j].rank
    ensures k <= |es| && InsertDown(e, es) == es[..k] + [e] + es[k..]
    ensures forall i :: k <= i < |es| ==> es[i].rank < e.rank
  {
    if es == [] || e.rank > es[0].rank {
      k := 0;
    } else {
      var rest := InsertedAt(e, es[1..]);
      k := rest + 1;
      assert es[1..][..rest] == es[1..k] && es[1..][rest..] == es[k..];
      assert [es[0]] + es[1..k] == es[..k];
      forall i | k <= i < |es| ensures es[i].rank < e.rank {
        assert es[i] == es[1..][i - 1];
      }
    }
  }

  lemma {:induction false} Inserted(all: seq<Eval>, es: seq<Eval>, e: Eval, k: nat, r: seq<Eval>)
    requires Follow(all, es) && (forall x :: x in es ==> x in all) && k <= |es| && r == es[..k] + [e] + es[k..]
    requires forall i :: k <= i < |es| ==> es[i].rank < e.rank
    ensures Follow(all + [e], r)
  {
    forall i: nat, j: nat | i < j < |r| && r[i].rank == r[j].rank ensures RankedAhead(all + [e], r[i], r[j]) {
      if j == k {
        assert es[i] in es;
      } else if i != k {
        var i', j' := if i < k then i else i - 1, if j < k then j else j - 1;
        assert RankedAhead(all, es[i'], es[j']);
      }
      AheadIn(all, e, r[i], r[j]);
    }
  }

  /** Sorting keeps those of equal rank in the order they came in. */
  lemma {:induction false} SortIsStable(es: seq<Eval>)
    ensures Follow(es, SortDown(es)) && forall x :: x in SortDown(es) <==> x in es
  {
    if es != [] {
      var n := |es| - 1;
      SortIsStable(es[..n]);
      SortDownSorts(es[..n]);
      var sorted := SortDown(es[..n]);
      forall i, j | 0 <= i < j < |sorted| ensures sorted[i].rank >= sorted[j].rank {
        assert AtLeast(sorted[i], sorted[j]);
      }
      var k := InsertedAt(es[n], sorted);
      Inserted(es[..n], sorted, es[n], k, SortDown(es));
      assert es == es[..n] + [es[n]];
      InsertedMembers(es, sorted, k);
    }
  }

  lemma {:induction false} InsertedMembers(es: seq<Eval>, sorted: seq<Eval>, k: nat)
    requires es != [] && k <= |sorted| && (forall x :: x in sorted <==> x in es[..|es| - 1])
    ensures forall x :: x in sorted[..k] + [es[|es| - 1]] + sorted[k..] <==> x in es
  {
    var e := es[|es| - 1];
    assert es == es[..|es| - 1] + [e] && sorted == sorted[..k] + sorted[k..];
    forall x ensures x in sorted[..k] + [e] + sorted[k..] <==> x in sorted || x == e {
    }
  }

  /** The evaluations come in the order of the ids. */
  lemma {:induction false} EvalsFollow(eligible: seq<int>, holes: HoleMap, community: seq<Card>, a: Eval, b: Eval)
    requires RankedAhead(EvalsOf(eligible, holes, community), a, b)
    ensures Ahead(eligible, a.id, b.id)
  {
    var es := EvalsOf(eligible, holes, community);
    var n := |eligible| - 1;
    var rest := EvalsOf(eligible[..n], holes, community);
    var p: nat, q: nat :| p < q < |es| && es[p] == a && es[q] == b;
    if q < |rest| {
      assert rest[p] == a && rest[q] == b;
      EvalsFollow(eligible[..n], holes, community, a, b);
      var i: nat, j: nat :| i < j < n && eligible[..n][i] == a.id && eligible[..n][j] == b.id;
      assert eligible[i] == a.id && eligible[j] == b.id;
    } else {
      EvalsMembers(eligible[..n], holes, community);
      assert rest[p] in rest;
      var i :| 0 <= i < n && eligible[..n][i] == a.id;
      assert eligible[i] == a.id && eligible[n] == b.id;
    }
  }

  lemma {:induction false} SplitInOrder(es: seq<Eval>, ranked: seq<Eval>, pot: Chips, i: nat, j: nat)
    requires Follow(es, ranked) && ranked != [] && i < j < |Leaders(ranked, ranked[0].rank)|
    ensures var awards := Split(Leaders(ranked, ranked[0].rank), pot);
      && awards[i].amount >= awards[j].amount && awards[i].id == ranked[i].id && awards[j].id == ranked[j].id
      && RankedAhead(es, ranked[i], ranked[j])
  {
    var winners := Leaders(ranked, ranked[0].rank);
    assert winners[i] == ranked[i] && winners[j] == ranked[j];
  }

  /** The awards of a pot come in the order of its claimants, and the odd chips go to the first of them. */
  lemma {:induction false} OddChipsFirst(eligible: seq<int>, holes: HoleMap, community: seq<Card>, pot: Chips, i: nat, j: nat)
    requires pot > 0 && i < j < |AwardsFor(eligible, holes, community, pot)|
    ensures var awards := AwardsFor(eligible, holes, community, pot);
      awards[i].amount >= awards[j].amount && Ahead(eligible, awards[i].id, awards[j].id)
  {
    var ranked := Ranked(eligible, holes, community);
    AwardsShape(eligible, holes, community, pot);
    SortIsStable(EvalsOf(eligible, holes, community));
    SplitInOrder(EvalsOf(eligible, holes, community), ranked, pot, i, j);
    EvalsFollow(eligible, holes, community, ranked[i], ranked[j]);
  }

  /** The seat is in for the pot and holds cards. */
  predicate InFor(s: Seat, pot: PM.Pot) {
    s.state != Empty && s.id in pot.eligible && s.hole.Dealt?
  }

  /** The value of the seat's own two cards with the board. */
  ghost function HandRank(s: Seat, board: seq<Card>): int
    requires s.hole.Dealt?
  {
    ShowdownRank([s.hole.card1, s.hole.card2], board)
  }

  /** In for the pot, with nobody in for it holding better cards. */
  ghost predicate Unbeaten(t: Table, pot: PM.Pot, i: nat)
    requires i < |t.seats|
  {
    && InFor(t.seats[i], pot)
    && forall j :: 0 <= j < |t.seats| && InFor(t.seats[j], pot) ==> HandRank(t.seats[j], t.board) <= HandRank(t.seats[i], t.board)
  }

  /** What the seat gets out of the pot. */
  ghost function ShareOf(t: Table, pot: PM.Pot, i: nat): Chips
    requires i < |t.seats|
  {
    AwardedTo(AwardsFor(pot.eligible, HolesOf(t.seats), t.board, pot.amount), t.seats[i].id)
  }

  /** The pots of a hand in play: each worth something, for distinct occupied seats. */
  ghost predicate PotOf(seats: seq<Seat>, pot: PM.Pot) {
    && pot.amount > 0 && (forall i, j :: 0 <= i < j < |pot.eligible| ==> pot.eligible[i] != pot.eligible[j])
    && forall id :: id in pot.eligible ==> id != 0 && HeldOnce(seats, id)
  }

  lemma {:induction false} PotsAreOfSeats(t: Table)
    requires IdsApart(t.seats) && StakesOk(t.seats)
    ensures forall p :: 0 <= p < |PotsOf(t.seats)| ==> PotOf(t.seats, PotsOf(t.seats)[p])
  {
    var cs := SortedEntries(t.seats);
    PM.PotsWellFormed(cs);
    var pots := PotsOf(t.seats);
    forall p | 0 <= p < |pots| ensures PotOf(t.seats, pots[p]) {
      forall id | id in pots[p].eligible ensures id != 0 && HeldOnce(t.seats, id) {
        var i := EntrySeat(t.seats, cs, id);
      }
    }
  }

  /** The holder of an id, and nobody else. */
  lemma {:induction false} HolderOf(seats: seq<Seat>, id: int) returns (i: nat)
    requires IdsApart(seats) && id != 0 && HeldOnce(seats, id)
    ensures i < |seats| && seats[i].id == id && seats[i].state != Empty
  {
    i :| 0 <= i < |seats| && seats[i].id == id && forall j :: 0 <= j < |seats| && seats[j].id == id ==> j == i;
  }

  lemma {:induction false} DealtHole(seats: seq<Seat>, i: nat)
    requires IdsApart(seats) && StakesOk(seats) && i < |seats| && seats[i].state != Empty
    ensures seats[i].id in HolesOf(seats) <==> seats[i].hole.Dealt?
    ensures seats[i].hole.Dealt? ==> HolesOf(seats)[seats[i].id] == [seats[i].hole.card1, seats[i].hole.card2]
  {
    HolesMember(seats, seats[i].id);
    if seats[i].hole.Dealt? { HoleIsOwn(seats, i); }
  }

  /** The best by id are the unbeaten by seat. */
  lemma {:induction false} TopIsUnbeaten(t: Table, pot: PM.Pot, i: nat)
    requires IdsApart(t.seats) && StakesOk(t.seats) && PotOf(t.seats, pot) && i < |t.seats| && t.seats[i].state != Empty
    ensures IsTop(pot.eligible, HolesOf(t.seats), t.board, t.seats[i].id) <==> Unbeaten(t, pot, i)
  {
    var holes := HolesOf(t.seats);
    DealtHole(t.seats, i);
    if Unbeaten(t, pot, i) {
      forall other | other in pot.eligible && other in holes
        ensures ShowdownRank(holes[other], t.board) <= ShowdownRank(holes[t.seats[i].id], t.board)
      {
        var j := HolderOf(t.seats, other);
        DealtHole(t.seats, j);
        assert InFor(t.seats[j], pot);
      }
    }
    if IsTop(pot.eligible, holes, t.board, t.seats[i].id) {
      forall j | 0 <= j < |t.seats| && InFor(t.seats[j], pot) ensures HandRank(t.seats[j], t.board) <= HandRank(t.seats[i], t.board) {
        DealtHole(t.seats, j);
      }
    }
  }

  /** An award in the pot is one share, to an unbeaten seat. */
  lemma {:induction false} ShareIs(t: Table, pot: PM.Pot, i: nat)
    requires IdsApart(t.seats) && StakesOk(t.seats) && PotOf(t.seats, pot) && i < |t.seats| && t.seats[i].state != Empty
    ensures var awards := AwardsFor(pot.eligible, HolesOf(t.seats), t.board, pot.amount);
      if Unbeaten(t, pot, i)
      then exists k :: 0 <= k < |awards| && awards[k].id == t.seats[i].id && ShareOf(t, pot, i) == awards[k].amount
      else ShareOf(t, pot, i) == 0
  {
    var id, awards := t.seats[i].id, AwardsFor(pot.eligible, HolesOf(t.seats), t.board, pot.amount);
    TopIsUnbeaten(t, pot, i);
    PotPaidToBest(pot.eligible, HolesOf(t.seats), t.board, pot.amount, id);
    if Awarded(awards, id) {
      var k :| 0 <= k < |awards| && awards[k].id == id;
      OneAwardEach(pot.eligible, HolesOf(t.seats), t.board, pot.amount);
      AwardedOnce(awards, k);
    } else {
      NotAwarded(awards, id);
    }
  }

  /** Shares are positive for unbeaten seats only, and theirs are within one chip of each other. */
  lemma {:induction false} SharesAreFair(t: Table, pot: PM.Pot, i: nat, j: nat)
    requires IdsApart(t.seats) && StakesOk(t.seats) && PotOf(t.seats, pot)
    requires i < |t.seats| && t.seats[i].state != Empty && j < |t.seats| && t.seats[j].state != Empty
    ensures ShareOf(t, pot, i) >= 0 && (ShareOf(t, pot, i) > 0 ==> Unbeaten(t, pot, i))
    ensures Unbeaten(t, pot, j) ==> ShareOf(t, pot, i) <= ShareOf(t, pot, j) + 1
  {
    ShareIs(t, pot, i);
    ShareIs(t, pot, j);
    var awards := AwardsFor(pot.eligible, HolesOf(t.seats), t.board, pot.amount);
    PotPaidWhole(pot.eligible, HolesOf(t.seats), t.board, pot.amount);
    if Unbeaten(t, pot, i) {
      var k :| 0 <= k < |awards| && awards[k].id == t.seats[i].id && ShareOf(t, pot, i) == awards[k].amount;
      assert WithinOne(awards[k], awards[k]);
      if Unbeaten(t, pot, j) {
        var m :| 0 <= m < |awards| && awards[m].id == t.seats[j].id && ShareOf(t, pot, j) == awards[m].amount;
        assert WithinOne(awards[k], awards[m]);
      }
    } else if Unbeaten(t, pot, j) {
      var m :| 0 <= m < |awards| && awards[m].id == t.seats[j].id && ShareOf(t, pot, j) == awards[m].amount;
      assert WithinOne(awards[m], awards[m]);
    }
  }

  function ToSeat(awards: seq<Award>): Seat -> int {
    (s: Seat) => AwardedTo(awards, s.id)
  }

  function HoldsId(a: Award): Seat -> int {
    (s: Seat) => if s.id == a.id then a.amount else 0
  }

  lemma {:induction false} SumOfHolder(seats: seq<Seat>, a: Award, i: nat)
    requires i < |seats| && seats[i].id == a.id && forall j :: 0 <= j < |seats| && seats[j].id == a.id ==> j == i
    ensures Sum(seats, HoldsId(a)) == a.amount
  {
    var n := |seats| - 1;
    if i == n {
      SumBounds(seats[..n], HoldsId(a), 0, 0);
    } else {
      SumOfHolder(seats[..n], a, i);
    }
  }

  /** Awards to ids that one seat each holds are received in full. */
  lemma {:induction false} AwardsReceived(seats: seq<Seat>, awards: seq<Award>)
    requires forall k :: 0 <= k < |awards| ==> HeldOnce(seats, awards[k].id)
    ensures Sum(seats, ToSeat(awards)) == Paid(awards)
  {
    if awards == [] {
      SumBounds(seats, ToSeat([]), 0, 0);
    } else {
      var n := |awards| - 1;
      AwardsReceived(seats, awards[..n]);
      SumAdds(seats, ToSeat(awards[..n]), HoldsId(awards[n]), ToSeat(awards));
      var i :| 0 <= i < |seats| && seats[i].id == awards[n].id
        && forall j :: 0 <= j < |seats| && seats[j].id == awards[n].id ==> j == i;
      SumOfHolder(seats, awards[n], i);
    }
  }

  lemma {:induction false} SumToIs(seats: seq<Seat>, n: nat, f: Seat -> int, g: nat -> int)
    requires n <= |seats| && forall i: nat :: i < |seats| ==> g(i) == f(seats[i])
    ensures SumTo(n, g) == Sum(seats[..n], f)
  {
    if n > 0 {
      SumToIs(seats, n - 1, f, g);
      assert seats[..n][..n - 1] == seats[..n - 1];
    }
  }

  ghost function SharesOf(t: Table, pot: PM.Pot): nat -> Chips {
    (i: nat) => if i < |t.seats| then ShareOf(t, pot, i) else 0
  }

  /** The shares of a pot add up to it, as long as somebody in for it holds cards. */
  lemma {:induction false} SharesAddUp(t: Table, pot: PM.Pot)
    requires IdsApart(t.seats) && StakesOk(t.seats) && PotOf(t.seats, pot)
    ensures SumTo(|t.seats|, SharesOf(t, pot))
         == if exists i :: 0 <= i < |t.seats| && InFor(t.seats[i], pot) then pot.amount else 0
  {
    var holes := HolesOf(t.seats);
    var awards := AwardsFor(pot.eligible, holes, t.board, pot.amount);
    PotPaidWhole(pot.eligible, holes, t.board, pot.amount);
    forall k | 0 <= k < |awards| ensures HeldOnce(t.seats, awards[k].id) {
      AwardIsEligible(pot, holes, t.board, k);
    }
    AwardsReceived(t.seats, awards);
    SumToIs(t.seats, |t.seats|, ToSeat(awards), SharesOf(t, pot));
    assert t.seats[..|t.seats|] == t.seats;
    SomeoneIn(t, pot);
  }

  lemma {:induction false} SomeoneIn(t: Table, pot: PM.Pot)
    requires IdsApart(t.seats) && StakesOk(t.seats) && PotOf(t.seats, pot)
    ensures SomeDealt(pot.eligible, HolesOf(t.seats)) <==> exists i :: 0 <= i < |t.seats| && InFor(t.seats[i], pot)
  {
    if i :| 0 <= i < |t.seats| && InFor(t.seats[i], pot) {
      DealtHole(t.seats, i);
    }
    if id :| id in pot.eligible && id in HolesOf(t.seats) {
      var i := HolderOf(t.seats, id);
      DealtHole(t.seats, i);
    }
  }

  // ---------- the whole showdown ----------

  ghost function FromPots(t: Table, pots: seq<PM.Pot>, i: nat): nat -> Chips {
    (p: nat) => if p < |pots| && i < |t.seats| then ShareOf(t, pots[p], i) else 0
  }

  lemma {:induction false} PotsAddUp(awards: seq<seq<Award>>, all: seq<seq<Award>>, id: int, n: nat, f: nat -> Chips)
    requires n <= |awards| && |all| == |awards| + 1 && all[0] == []
    requires forall p: nat :: p < |awards| ==> all[p + 1] == all[p] + awards[p]
    requires forall p: nat :: p < |awards| ==> f(p) == AwardedTo(awards[p], id)
    ensures AwardedTo(all[n], id) == SumTo(n, f)
  {
    if n > 0 {
      PotsAddUp(awards, all, id, n - 1, f);
      AwardedAppend(all[n - 1], awards[n - 1], id);
    }
  }

  lemma {:induction false} GainsByPot(t: Table, pots: seq<PM.Pot>, i: nat)
    requires i < |t.seats|
    ensures AwardedTo(AwardsOfPots(pots, HolesOf(t.seats), t.board), t.seats[i].id) == SumTo(|pots|, FromPots(t, pots, i))
  {
    var holes := HolesOf(t.seats);
    var awards := seq(|pots|, p requires 0 <= p < |pots| => AwardsFor(pots[p].eligible, holes, t.board, pots[p].amount));
    var all := seq(|pots| + 1, p requires 0 <= p <= |pots| => AwardsOfPots(pots[..p], holes, t.board));
    forall p: nat | p < |awards| ensures all[p + 1] == all[p] + awards[p] {
      assert pots[..p + 1][..p] == pots[..p];
    }
    PotsAddUp(awards, all, t.seats[i].id, |pots|, FromPots(t, pots, i));
    assert pots[..|pots|] == pots;
  }

  /** Seat by seat: what a player has after the showdown is the stack before and its shares of the pots. */
  lemma {:induction false} SeatGains(t: Table, i: nat)
    requires IdsApart(t.seats) && StakesOk(t.seats) && i < |t.seats|
    ensures var pots := PotsOf(t.seats);
      DoShowdown(t).seats[i].chips == t.seats[i].chips + SumTo(|pots|, FromPots(t, pots, i))
  {
    SeatReceives(t, i);
    GainsByPot(t, PotsOf(t.seats), i);
  }

  /** On a full board the value by which the hands are compared is that of the best five of the seven. */
  lemma {:induction false} RankIsBest(s: Seat, board: seq<Card>, v: EvalResult)
    requires s.hole.Dealt? && |board| == 5 && Distinct([s.hole.card1, s.hole.card2] + board)
    requires IsBest(Elements(board) + {s.hole.card1, s.hole.card2}, v)
    ensures HandRank(s, board) == v.Value()
  {
    var all := [s.hole.card1, s.hole.card2] + board;
    forall c ensures c in Elements(all) <==> c in Elements(board) + {s.hole.card1, s.hole.card2} {
      if c in board {
        var k :| 0 <= k < |board| && board[k] == c;
        assert all[k + 2] == c;
      }
      if c == s.hole.card1 || c == s.hole.card2 { assert all[0] == c || all[1] == c; }
    }
    assert Elements(all) == Elements(board) + {s.hole.card1, s.hole.card2};
    StrengthIs(all, v);
  }

  // ---------- what a player can win at most ----------

  lemma {:induction false} MatchedAppend(cs: seq<PM.Contrib>, c: PM.Contrib, x: Chips)
    ensures PM.Matched(cs + [c], x) == PM.Matched(cs, x) + PM.Min(c.invested, x)
  {
    if cs != [] {
      MatchedAppend(cs[1..], c, x);
      assert (cs + [c])[1..] == cs[1..] + [c];
    }
  }

  lemma {:induction false} MatchedInsert(c: PM.Contrib, cs: seq<PM.Contrib>, x: Chips)
    ensures PM.Matched(PM.Insert(c, cs), x) == PM.Min(c.invested, x) + PM.Matched(cs, x)
  {
    if cs == [] || c.invested < cs[0].invested {
      assert ([c] + cs)[1..] == cs;
    } else {
      MatchedInsert(c, cs[1..], x);
      var rest := PM.Insert(c, cs[1..]);
      assert ([cs[0]] + rest)[1..] == rest;
    }
  }

  lemma {:induction false} MatchedSort(cs: seq<PM.Contrib>, x: Chips)
    ensures PM.Matched(PM.SortByInvested(cs), x) == PM.Matched(cs, x)
  {
    if cs != [] {
      var n := |cs| - 1;
      MatchedSort(cs[..n], x);
      MatchedInsert(cs[n], PM.SortByInvested(cs[..n]), x);
      MatchedAppend(cs[..n], cs[n], x);
      assert cs == cs[..n] + [cs[n]];
    }
  }

  // ---------- the order of the claimants ----------

  lemma {:induction false} LiveIdFrom(cs: seq<PM.Contrib>, q: nat) returns (j: nat)
    requires q < |PM.LiveIds(cs)|
    ensures j < |cs| && cs[j].id == PM.LiveIds(cs)[q] && !cs[j].folded
  {
    var k := if cs[0].folded then 0 else 1;
    if q < k { j := 0; } else { var i := LiveIdFrom(cs[1..], q - k); j := i + 1; }
  }

  lemma {:induction false} LiveIdsByStake(cs: seq<PM.Contrib>, p: nat, q: nat) returns (i: nat, j: nat)
    requires PM.SortedByInvested(cs) && p < q < |PM.LiveIds(cs)|
    ensures i < |cs| && j < |cs| && cs[i].id == PM.LiveIds(cs)[p] && cs[j].id == PM.LiveIds(cs)[q]
    ensures cs[i].invested <= cs[j].invested
  {
    var k := if cs[0].folded then 0 else 1;
    if p < k {
      var m := LiveIdFrom(cs[1..], q - k);
      i, j := 0, m + 1;
    } else {
      var a, b := LiveIdsByStake(cs[1..], p - k, q - k);
      i, j := a + 1, b + 1;
    }
  }

  lemma {:induction false} EntryOf(seats: seq<Seat>, c: PM.Contrib, a: nat)
    requires IdsApart(seats) && StakesOk(seats) && c in PM.Contribs(seats)
    requires a < |seats| && seats[a].state != Empty && seats[a].id == c.id
    ensures c.invested == seats[a].invested
  {
    EntryMembers(seats, c);
    var i :| 0 <= i < |seats| && seats[i].invested > 0 && PM.ContribOf(seats[i]) == c;
    assert seats[i].state != Empty;
  }

  lemma {:induction false} PotByStake(cs: seq<PM.Contrib>, k: nat, p: nat, q: nat) returns (a: PM.Contrib, b: PM.Contrib)
    requires PM.SortedByInvested(cs) && PM.AllPositive(cs) && k < |PM.PotsFrom(cs)| && p < q < |PM.PotsFrom(cs)[k].eligible|
    ensures a in cs && b in cs && a.invested <= b.invested
    ensures a.id == PM.PotsFrom(cs)[k].eligible[p] && b.id == PM.PotsFrom(cs)[k].eligible[q]
  {
    PM.LayersAndDead(cs, k);
    var n: nat :| n < |cs| && PM.Peel(cs, 0, 0).pots[k] == PM.LayerAt(cs, n, 0);
    a, b := LayerByStake(cs, cs[n..], p, q);
  }

  lemma {:induction false} LayerByStake(cs: seq<PM.Contrib>, rest: seq<PM.Contrib>, p: nat, q: nat) returns (a: PM.Contrib, b: PM.Contrib)
    requires PM.SortedByInvested(rest) && (forall c :: c in rest ==> c in cs) && p < q < |PM.LiveIds(rest)|
    ensures a in cs && b in cs && a.invested <= b.invested && a.id == PM.LiveIds(rest)[p] && b.id == PM.LiveIds(rest)[q]
  {
    var i, j := LiveIdsByStake(rest, p, q);
    a, b := rest[i], rest[j];
  }

  /** The claimants of a pot are listed by what they have put in, the least first. */
  lemma {:induction false} ClaimantsByStake(t: Table, k: nat, p: nat, q: nat, a: nat, b: nat)
    requires IdsApart(t.seats) && StakesOk(t.seats) && k < |PotsOf(t.seats)| && p < q < |PotsOf(t.seats)[k].eligible|
    requires a < |t.seats| && t.seats[a].state != Empty && t.seats[a].id == PotsOf(t.seats)[k].eligible[p]
    requires b < |t.seats| && t.seats[b].state != Empty && t.seats[b].id == PotsOf(t.seats)[k].eligible[q]
    ensures t.seats[a].invested <= t.seats[b].invested
  {
    var cs := SortedEntries(t.seats);
    var x, y := PotByStake(cs, k, p, q);
    EntryOf(t.seats, x, a);
    EntryOf(t.seats, y, b);
  }

  function UpTo(x: Chips): Seat -> int {
    (s: Seat) => if s.invested <= x then s.invested else x
  }

  lemma {:induction false} MatchedIsSum(seats: seq<Seat>, x: Chips)
    requires StakesOk(seats) && x >= 0
    ensures PM.Matched(PM.Contribs(seats), x) == Sum(seats, UpTo(x))
  {
    if seats != [] {
      var n := |seats| - 1;
      MatchedIsSum(seats[..n], x);
      MatchedAppend(PM.Contribs(seats[..n]), PM.ContribOf(seats[n]), x);
      assert PM.Contribs(seats[..n]) + [] == PM.Contribs(seats[..n]);
    }
  }

  ghost function AmountsFor(pots: seq<PM.Pot>, id: int): nat -> Chips {
    (p: nat) => if p < |pots| && id in pots[p].eligible then pots[p].amount else 0
  }

  lemma {:induction false} WinnableIsSum(pots: seq<PM.Pot>, id: int)
    ensures PM.Winnable(pots, id) == SumTo(|pots|, AmountsFor(pots, id))
  {
    if pots != [] {
      WinnableIsSum(pots[1..], id);
      SumToFirst(|pots|, AmountsFor(pots, id), AmountsFor(pots[1..], id));
    }
  }

  /** Whoever has the largest stake still in is in for every chip; anybody else still in is in for as
      much of each player's stake as his own; and whoever has folded, or has nothing in, for nothing. */
  lemma {:induction false} SeatMayWin(t: Table, i: nat)
    requires IdsApart(t.seats) && StakesOk(t.seats) && i < |t.seats| && t.seats[i].state != Empty
    ensures var s, pots := t.seats[i], PotsOf(t.seats);
      SumTo(|pots|, AmountsFor(pots, s.id)) ==
        if !Claims(s) then 0
        else if forall j :: 0 <= j < |t.seats| && Claims(t.seats[j]) ==> t.seats[j].invested <= s.invested then Sum(t.seats, InvestedOf)
        else Sum(t.seats, UpTo(s.invested))
  {
    var s, pots := t.seats[i], PotsOf(t.seats);
    var cs := SortedEntries(t.seats);
    WinnableIsSum(pots, s.id);
    if Claims(s) {
      var k := SeatEntry(t.seats, cs, i);
      PM.PotsRefineChipRule(cs, k);
      LargestIs(t.seats, cs, i, k);
      OccupiedIsSame(t.seats);
      MatchedSort(PM.Contribs(t.seats), s.invested);
      MatchedIsSum(t.seats, s.invested);
    } else {
      PM.PotsWellFormed(cs);
      if s.id in PM.LiveIds(cs) { var j := EntrySeat(t.seats, cs, s.id); }
      NotInFor(pots, s.id);
    }
  }

  lemma {:induction false} NotInFor(pots: seq<PM.Pot>, id: int)
    requires forall p :: 0 <= p < |pots| ==> id !in pots[p].eligible
    ensures PM.Winnable(pots, id) == 0
  {
    if pots != [] { NotInFor(pots[1..], id); }
  }

  lemma {:induction false} LargestIs(seats: seq<Seat>, cs: seq<PM.Contrib>, i: nat, k: nat)
    requires i < |seats| && Claims(seats[i]) && k < |cs| && cs[k] == PM.ContribOf(seats[i])
    requires forall c :: c in cs <==> c in PM.Contribs(seats)
    ensures PM.LargestLive(cs, k) <==> forall j :: 0 <= j < |seats| && Claims(seats[j]) ==> seats[j].invested <= seats[i].invested
  {
    if PM.LargestLive(cs, k) {
      forall j | 0 <= j < |seats| && Claims(seats[j]) ensures seats[j].invested <= seats[i].invested {
        var m := SeatEntry(seats, cs, j);
      }
    }
    if forall j :: 0 <= j < |seats| && Claims(seats[j]) ==> seats[j].invested <= seats[i].invested {
      forall m | 0 <= m < |cs| && !cs[m].folded ensures cs[m].invested <= cs[k].invested {
        assert cs[m] in cs;
        EntryMembers(seats, cs[m]);
      }
    }
  }
}
