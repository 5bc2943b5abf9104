/** What DoShowdown pays: every chip wagered, exactly when the largest stake still in the hand
    belongs to a player holding cards. */
module Payout {
  import opened Cards
  import opened Seats
  import opened Showdown
  import opened HandSpec
  import PM = PotManager
  import Evaluator

  /** Seats as AddPlayerAtSeat leaves them: occupied seats have distinct ids, none of them the 0 of an
      empty seat. */
  ghost predicate IdsApart(seats: seq<Seat>) {
    && (forall i :: 0 <= i < |seats| ==> if seats[i].state == Empty then seats[i].id == 0 else seats[i].id != 0)
    && (forall i, j :: 0 <= i < j < |seats| && seats[i].state != Empty && seats[j].state != Empty ==>
          seats[i].id != seats[j].id)
  }

  /** And they are positive, as the ids of agents and of accounts are. */
  ghost predicate IdsOk(seats: seq<Seat>) {
    IdsApart(seats) && forall i :: 0 <= i < |seats| && seats[i].state != Empty ==> seats[i].id > 0
  }

  ghost predicate StakesOk(seats: seq<Seat>) {
    forall i :: 0 <= i < |seats| ==>
      seats[i].invested >= 0 && (seats[i].state == Empty ==> seats[i].invested == 0 && seats[i].hole.Undealt?)
  }

  /** Has chips in and has not folded: a claimant to the pots. */
  predicate Claims(s: Seat) { s.invested > 0 && !s.IsFolded() }

  /** Nothing was wagered, or a largest claimant holds cards. */
  ghost predicate Funded(seats: seq<Seat>) {
    || Sum(seats, InvestedOf) == 0
    || exists i :: 0 <= i < |seats| && LargestDealt(seats, i)
  }

  ghost predicate LargestDealt(seats: seq<Seat>, i: nat)
    requires i < |seats|
  {
    && Claims(seats[i]) && seats[i].hole.Dealt?
    && forall j :: 0 <= j < |seats| && Claims(seats[j]) ==> seats[j].invested <= seats[i].invested
  }

  // ---------- seats, contributors and ids ----------

  function Entries(seats: seq<Seat>): seq<PM.Contrib> {
    PM.Contribs(OccupiedSeats(seats))
  }

  lemma {:induction false} OccupiedIsSame(seats: seq<Seat>)
    requires StakesOk(seats)
    ensures Entries(seats) == PM.Contribs(seats)
  {
    if seats != [] {
      var n := |seats| - 1;
      OccupiedIsSame(seats[..n]);
      var occ := OccupiedSeats(seats[..n]);
      if seats[n].state != Empty {
        assert (occ + [seats[n]])[..|occ|] == occ;
      } else {
        assert occ + [] == occ;
      }
    }
  }

  lemma {:induction false} EntryMembers(seats: seq<Seat>, c: PM.Contrib)
    ensures c in PM.Contribs(seats) <==> exists i :: 0 <= i < |seats| && seats[i].invested > 0 && PM.ContribOf(seats[i]) == c
  {
    if seats != [] {
      var n := |seats| - 1;
      EntryMembers(seats[..n], c);
      if i :| 0 <= i < n && seats[i].invested > 0 && PM.ContribOf(seats[i]) == c {
        assert seats[..n][i] == seats[i];
      }
    }
  }

  lemma {:induction false} EntryIds(seats: seq<Seat>)
    requires IdsApart(seats) && StakesOk(seats)
    ensures PM.UniqueIds(PM.Contribs(seats)) && PM.AllPositive(PM.Contribs(seats))
  {
    if seats != [] {
      var n := |seats| - 1;
      EntryIds(seats[..n]);
      var rest := PM.Contribs(seats[..n]);
      forall k | 0 <= k < |rest| && seats[n].invested > 0 ensures rest[k].id != seats[n].id {
        EntryMembers(seats[..n], rest[k]);
        var i :| 0 <= i < n && seats[..n][i].invested > 0 && PM.ContribOf(seats[..n][i]) == rest[k];
      }
    }
  }

  lemma {:induction false} StakedAppend(cs: seq<PM.Contrib>, c: PM.Contrib)
    ensures PM.Staked(cs + [c]) == PM.Staked(cs) + c.invested
  {
    if cs != [] {
      StakedAppend(cs[1..], c);
      assert (cs + [c])[1..] == cs[1..] + [c];
    }
  }

  lemma {:induction false} StakedInsert(c: PM.Contrib, cs: seq<PM.Contrib>)
    requires PM.SortedByInvested(cs)
    ensures PM.Staked(PM.Insert(c, cs)) == c.invested + PM.Staked(cs)
  {
    if cs == [] || c.invested < cs[0].invested {
      assert ([c] + cs)[1..] == cs;
    } else {
      StakedInsert(c, cs[1..]);
      var rest := PM.Insert(c, cs[1..]);
      assert ([cs[0]] + rest)[1..] == rest;
    }
  }

  lemma {:induction false} StakedSort(cs: seq<PM.Contrib>)
    ensures PM.Staked(PM.SortByInvested(cs)) == PM.Staked(cs)
  {
    if cs != [] {
      var n := |cs| - 1;
      var init, last := cs[..n], cs[n];
      assert cs == init + [last];
      StakedSort(init);
      PM.SortSorts(init);
      StakedInsert(last, PM.SortByInvested(init));
      StakedAppend(init, last);
      assert PM.SortByInvested(cs) == PM.Insert(last, PM.SortByInvested(init));
    }
  }

  lemma {:induction false} StakedIsInvested(seats: seq<Seat>)
    requires StakesOk(seats)
    ensures PM.Staked(PM.Contribs(seats)) == Sum(seats, InvestedOf)
  {
    if seats != [] {
      var n := |seats| - 1;
      StakedIsInvested(seats[..n]);
      var rest := PM.Contribs(seats[..n]);
      StakedAppend(rest, PM.ContribOf(seats[n]));
      assert rest + [] == rest;
    }
  }

  /** The sorted contributors: still unique and positive, same members, same total. */
  lemma {:induction false} SortedEntries(seats: seq<Seat>) returns (cs: seq<PM.Contrib>)
    requires IdsApart(seats) && StakesOk(seats)
    ensures cs == PM.SortByInvested(Entries(seats)) && PotsOf(seats) == PM.PotsFrom(cs)
    ensures PM.SortedByInvested(cs) && PM.UniqueIds(cs) && PM.AllPositive(cs)
    ensures PM.Staked(cs) == Sum(seats, InvestedOf)
    ensures forall c :: c in cs <==> c in PM.Contribs(seats)
  {
    OccupiedIsSame(seats);
    EntryIds(seats);
    StakedIsInvested(seats);
    var raw := PM.Contribs(seats);
    cs := PM.SortByInvested(raw);
    PM.SortSorts(raw);
    StakedSort(raw);
    SameMembers(raw, cs);
  }

  lemma {:induction false} SameMembers(raw: seq<PM.Contrib>, cs: seq<PM.Contrib>)
    requires multiset(raw) == multiset(cs) && PM.UniqueIds(raw) && PM.AllPositive(raw)
    ensures forall c :: c in cs <==> c in raw
    ensures PM.UniqueIds(cs) && PM.AllPositive(cs)
  {
    forall c ensures c in cs <==> c in raw {
      assert c in cs <==> c in multiset(cs);
      assert c in raw <==> c in multiset(raw);
    }
    Evaluator.SameElements(raw, cs);
    forall i, j | 0 <= i < j < |cs| ensures cs[i].id != cs[j].id {
      assert cs[i] in raw && cs[j] in raw && cs[i] != cs[j];
    }
    forall i | 0 <= i < |cs| ensures cs[i].invested > 0 { assert cs[i] in raw; }
  }

  /** A seat with chips in is a contributor. */
  lemma {:induction false} SeatEntry(seats: seq<Seat>, cs: seq<PM.Contrib>, i: nat) returns (k: nat)
    requires i < |seats| && seats[i].invested > 0 && forall c :: c in cs <==> c in PM.Contribs(seats)
    ensures k < |cs| && cs[k] == PM.ContribOf(seats[i])
  {
    EntryMembers(seats, PM.ContribOf(seats[i]));
    assert PM.ContribOf(seats[i]) in cs;
    k :| 0 <= k < |cs| && cs[k] == PM.ContribOf(seats[i]);
  }

  /** A live contributor id belongs to exactly one seat, a claimant. */
  lemma {:induction false} EntrySeat(seats: seq<Seat>, cs: seq<PM.Contrib>, id: int) returns (i: nat)
    requires IdsApart(seats) && StakesOk(seats) && id in PM.LiveIds(cs)
    requires forall c :: c in cs <==> c in PM.Contribs(seats)
    ensures i < |seats| && seats[i].id == id && Claims(seats[i]) && HeldOnce(seats, id)
    ensures PM.ContribOf(seats[i]) in cs
  {
    PM.LiveIdsMembers(cs);
    var k :| 0 <= k < |cs| && cs[k].id == id && !cs[k].folded;
    assert cs[k] in cs;
    EntryMembers(seats, cs[k]);
    i :| 0 <= i < |seats| && seats[i].invested > 0 && PM.ContribOf(seats[i]) == cs[k];
    forall j | 0 <= j < |seats| && seats[j].id == id ensures j == i {
      assert seats[i].state != Empty && seats[j].state != Empty;
    }
  }

  lemma {:induction false} HolesMember(seats: seq<Seat>, id: int)
    ensures id in HolesOf(seats) <==> exists i :: 0 <= i < |seats| && seats[i].id == id && seats[i].hole.Dealt?
  {
    if seats != [] {
      var n := |seats| - 1;
      HolesMember(seats[..n], id);
      if i :| 0 <= i < n && seats[i].id == id && seats[i].hole.Dealt? {
        assert seats[..n][i] == seats[i];
      }
    }
  }

  // ---------- the sum paid over all pots ----------

  lemma {:induction false} PaidAppend(a: seq<Award>, b: seq<Award>)
    ensures Paid(a + b) == Paid(a) + Paid(b)
  {
    if b == [] {
      assert a + b == a;
    } else {
      var n := |b| - 1;
      PaidAppend(a, b[..n]);
      assert (a + b)[..|a + b| - 1] == a + b[..n];
    }
  }

  lemma {:induction false} TotalAppend(pots: seq<PM.Pot>, p: PM.Pot)
    ensures PM.TotalOf(pots + [p]) == PM.TotalOf(pots) + p.amount
  {
    if pots != [] {
      TotalAppend(pots[1..], p);
      assert (pots + [p])[1..] == pots[1..] + [p];
    }
  }

  ghost predicate AllDealt(pots: seq<PM.Pot>, holes: HoleMap) {
    forall k :: 0 <= k < |pots| ==> SomeDealt(pots[k].eligible, holes)
  }

  /** The pots pay at most their total, and all of it exactly when every pot has a dealt player. */
  lemma {:induction false} PotsPay(pots: seq<PM.Pot>, holes: HoleMap, board: seq<Card>)
    requires forall k :: 0 <= k < |pots| ==> pots[k].amount > 0
    ensures Paid(AwardsOfPots(pots, holes, board)) <= PM.TotalOf(pots)
    ensures Paid(AwardsOfPots(pots, holes, board)) == PM.TotalOf(pots) <==> AllDealt(pots, holes)
  {
    if pots != [] {
      var n := |pots| - 1;
      var init, last := pots[..n], pots[n];
      PotsPay(init, holes, board);
      OneMorePot(init, last, holes, board, PM.TotalOf(init), Paid(AwardsOfPots(init, holes, board)));
      assert pots == init + [last];
    }
  }

  lemma {:induction false} OneMorePot(init: seq<PM.Pot>, last: PM.Pot, holes: HoleMap, board: seq<Card>, total: Chips, paid: Chips)
    requires last.amount > 0 && total == PM.TotalOf(init) && paid == Paid(AwardsOfPots(init, holes, board))
    requires paid <= total && (paid == total <==> AllDealt(init, holes))
    ensures var pots := init + [last];
      && Paid(AwardsOfPots(pots, holes, board)) <= PM.TotalOf(pots)
      && (Paid(AwardsOfPots(pots, holes, board)) == PM.TotalOf(pots) <==> AllDealt(pots, holes))
  {
    LastPotPays(init, last, holes, board, paid);
    TotalAppend(init, last);
    DealtAppend(init, last, holes);
  }

  lemma {:induction false} DealtAppend(init: seq<PM.Pot>, last: PM.Pot, holes: HoleMap)
    ensures AllDealt(init + [last], holes) <==> AllDealt(init, holes) && SomeDealt(last.eligible, holes)
  {
    var pots := init + [last];
    assert pots[|init|] == last;
    assert forall k :: 0 <= k < |init| ==> pots[k] == init[k];
  }

  lemma {:induction false} LastPotPays(init: seq<PM.Pot>, last: PM.Pot, holes: HoleMap, board: seq<Card>, paid: Chips)
    requires last.amount > 0 && paid == Paid(AwardsOfPots(init, holes, board))
    ensures Paid(AwardsOfPots(init + [last], holes, board)) ==
      paid + if SomeDealt(last.eligible, holes) then last.amount else 0
  {
    var pots := init + [last];
    assert pots[..|init|] == init;
    PotPaidWhole(last.eligible, holes, board, last.amount);
    PaidAppend(AwardsOfPots(init, holes, board), AwardsFor(last.eligible, holes, board, last.amount));
  }

  lemma {:induction false} AwardsFromPots(pots: seq<PM.Pot>, holes: HoleMap, board: seq<Card>, k: nat)
    requires forall k :: 0 <= k < |pots| ==> pots[k].amount > 0
    requires k < |AwardsOfPots(pots, holes, board)|
    ensures var a := AwardsOfPots(pots, holes, board)[k];
      a.amount >= 0 && exists p :: 0 <= p < |pots| && a.id in pots[p].eligible
  {
    var init, last := pots[..|pots| - 1], pots[|pots| - 1];
    AwardsSplit(pots, holes, board);
    if k < |AwardsOfPots(init, holes, board)| {
      AwardsFromPots(init, holes, board, k);
      EligibleEarlier(pots, init, AwardsOfPots(init, holes, board)[k].id);
    } else {
      AwardIsEligible(last, holes, board, k - |AwardsOfPots(init, holes, board)|);
    }
  }

  lemma {:induction false} EligibleEarlier(pots: seq<PM.Pot>, init: seq<PM.Pot>, id: int)
    requires init <= pots && exists p :: 0 <= p < |init| && id in init[p].eligible
    ensures exists p :: 0 <= p < |pots| && id in pots[p].eligible
  {
    var p :| 0 <= p < |init| && id in init[p].eligible;
    assert pots[p] == init[p];
  }

  lemma {:induction false} AwardsSplit(pots: seq<PM.Pot>, holes: HoleMap, board: seq<Card>)
    requires pots != []
    ensures var last := pots[|pots| - 1];
      AwardsOfPots(pots, holes, board)
        == AwardsOfPots(pots[..|pots| - 1], holes, board) + AwardsFor(last.eligible, holes, board, last.amount)
  {
  }

  lemma {:induction false} AwardIsEligible(p: PM.Pot, holes: HoleMap, board: seq<Card>, k: nat)
    requires p.amount > 0 && k < |AwardsFor(p.eligible, holes, board, p.amount)|
    ensures var a := AwardsFor(p.eligible, holes, board, p.amount)[k]; a.amount >= 0 && a.id in p.eligible
  {
    var mine := AwardsFor(p.eligible, holes, board, p.amount);
    PotPaidWhole(p.eligible, holes, board, p.amount);
    assert Awarded(mine, mine[k].id) && WithinOne(mine[k], mine[k]);
    PotPaidToBest(p.eligible, holes, board, p.amount, mine[k].id);
  }

  // ---------- the showdown conserves chips exactly when it is funded ----------

  lemma {:induction false} FundedPaysAll(t: Table, i: nat)
    requires IdsApart(t.seats) && StakesOk(t.seats) && i < |t.seats| && LargestDealt(t.seats, i)
    ensures Paid(Awards(t)) == Sum(t.seats, InvestedOf)
  {
    var cs := SortedEntries(t.seats);
    var k := SeatEntry(t.seats, cs, i);
    forall j | 0 <= j < |cs| && !cs[j].folded ensures cs[j].invested <= cs[k].invested {
      assert cs[j] in cs;
      EntryMembers(t.seats, cs[j]);
    }
    PM.LastPotIsForLargest(cs, k);
    PM.PotsConserve(cs);
    PM.LiveIdsMembers(cs);
    PM.PotsWellFormed(cs);
    HolesMember(t.seats, cs[k].id);
    PotsPay(PotsOf(t.seats), HolesOf(t.seats), t.board);
    forall p | 0 <= p < |PotsOf(t.seats)| ensures SomeDealt(PotsOf(t.seats)[p].eligible, HolesOf(t.seats)) {
      assert cs[k].id in PotsOf(t.seats)[p].eligible;
    }
  }

  lemma {:induction false} UnfundedLosesChips(t: Table)
    requires IdsApart(t.seats) && StakesOk(t.seats) && !Funded(t.seats)
    ensures Paid(Awards(t)) < Sum(t.seats, InvestedOf)
  {
    var cs := SortedEntries(t.seats);
    var pots, holes := PotsOf(t.seats), HolesOf(t.seats);
    PM.PotsConserve(cs);
    PM.PotsWellFormed(cs);
    PM.LiveIdsMembers(cs);
    PotsPay(pots, holes, t.board);
    SumNonNegative(t.seats, InvestedOf);
    if PM.LiveIds(cs) != [] {
      var k :| 0 <= k < |cs| && !cs[k].folded;
      PM.LastPotIsForLargest(cs, k);
      var last := pots[|pots| - 1];
      if SomeDealt(last.eligible, holes) {
        var id :| id in last.eligible && id in holes;
        LastPotHolder(t, cs, id);
      }
    }
  }

  /** A dealt player eligible for the last pot is a largest claimant. */
  lemma {:induction false} LastPotHolder(t: Table, cs: seq<PM.Contrib>, id: int)
    requires IdsApart(t.seats) && StakesOk(t.seats) && PotsOf(t.seats) == PM.PotsFrom(cs) != []
    requires PM.SortedByInvested(cs) && PM.UniqueIds(cs) && PM.AllPositive(cs)
    requires forall c :: c in cs <==> c in PM.Contribs(t.seats)
    requires id in PM.PotsFrom(cs)[|PM.PotsFrom(cs)| - 1].eligible && id in HolesOf(t.seats)
    ensures Funded(t.seats)
  {
    PM.PotsWellFormed(cs);
    var i := EntrySeat(t.seats, cs, id);
    var k := SeatEntry(t.seats, cs, i);
    PM.LastPotIsForLargest(cs, k);
    HolesMember(t.seats, id);
    forall j | 0 <= j < |t.seats| && Claims(t.seats[j]) ensures t.seats[j].invested <= t.seats[i].invested {
      var m := SeatEntry(t.seats, cs, j);
    }
    assert LargestDealt(t.seats, i);
  }

  lemma {:induction false} AwardsHeldOnce(t: Table)
    requires IdsApart(t.seats) && StakesOk(t.seats)
    ensures forall k :: 0 <= k < |Awards(t)| ==>
      HeldOnce(t.seats, Awards(t)[k].id) && Awards(t)[k].id != 0 && Awards(t)[k].amount >= 0
  {
    var cs := SortedEntries(t.seats);
    PM.PotsWellFormed(cs);
    forall k | 0 <= k < |Awards(t)|
      ensures HeldOnce(t.seats, Awards(t)[k].id) && Awards(t)[k].id != 0 && Awards(t)[k].amount >= 0
    {
      AwardsFromPots(PotsOf(t.seats), HolesOf(t.seats), t.board, k);
      var i := EntrySeat(t.seats, cs, Awards(t)[k].id);
    }
  }

  lemma {:induction false} UnnamedUnpaid(seats: seq<Seat>, awards: seq<Award>, i: nat)
    requires i < |seats| && forall k :: 0 <= k < |awards| ==> awards[k].id != seats[i].id
    ensures PayAll(seats, awards)[i] == seats[i]
  {
    if awards != [] { UnnamedUnpaid(seats, awards[..|awards| - 1], i); }
  }

  /** Nobody pays an empty seat. */
  lemma {:induction false} EmptySeatsUnpaid(t: Table)
    requires IdsApart(t.seats) && StakesOk(t.seats)
    ensures forall i :: 0 <= i < |t.seats| && t.seats[i].state == Empty ==> PayAll(t.seats, Awards(t))[i] == t.seats[i]
  {
    AwardsHeldOnce(t);
    forall i | 0 <= i < |t.seats| && t.seats[i].state == Empty ensures PayAll(t.seats, Awards(t))[i] == t.seats[i] {
      UnnamedUnpaid(t.seats, Awards(t), i);
    }
  }

  /** Stacks after the showdown: what was on the table plus what the pots paid. */
  lemma {:induction false} ShowdownWealth(t: Table)
    requires IdsApart(t.seats) && StakesOk(t.seats)
    ensures Sum(DoShowdown(t).seats, WealthOf) == Sum(t.seats, ChipsOf) + Paid(Awards(t))
  {
    AwardsHeldOnce(t);
    PayAllAdds(t.seats, Awards(t));
    SumCompare(DoShowdown(t).seats, PayAll(t.seats, Awards(t)), WealthOf, ChipsOf);
  }

  /** A showdown conserves chips if and only if it is funded; otherwise chips vanish. */
  lemma {:induction false} ShowdownConservesIff(t: Table)
    requires IdsApart(t.seats) && StakesOk(t.seats)
    ensures Sum(DoShowdown(t).seats, WealthOf) <= Sum(t.seats, WealthOf)
    ensures Sum(DoShowdown(t).seats, WealthOf) == Sum(t.seats, WealthOf) <==> Funded(t.seats)
  {
    ShowdownWealth(t);
    SumAdds(t.seats, ChipsOf, InvestedOf, WealthOf);
    if Funded(t.seats) {
      if Sum(t.seats, InvestedOf) == 0 {
        NothingWagered(t);
      } else {
        var i :| 0 <= i < |t.seats| && LargestDealt(t.seats, i);
        FundedPaysAll(t, i);
      }
    } else {
      UnfundedLosesChips(t);
    }
  }

  lemma {:induction false} NothingWagered(t: Table)
    requires IdsApart(t.seats) && StakesOk(t.seats) && Sum(t.seats, InvestedOf) == 0
    ensures Paid(Awards(t)) == 0
  {
    var cs := SortedEntries(t.seats);
    PM.StakedPositive(cs);
    assert cs == [];
    assert PotsOf(t.seats) == [];
  }
}
