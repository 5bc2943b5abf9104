/** Buy-ins and cash-outs between the wallets and a table (cli/poker_ws_server.cpp), on the ledger
    and the table object. The database is taken to be initialised; authentication, metrics and
    mirrors of the balance are not part of this model. */
module TableServer {
  import opened Seats
  import opened HandSpec
  import opened Ownership
  import G = GameState
  import L = ChipLedger

  /** A buy-in debited but not yet seated, kept for crash recovery. */
  datatype Pending = Pending(id: int, amount: Chips)

  function Without(pending: seq<Pending>, id: int): seq<Pending> {
    if pending == [] then []
    else Without(pending[..|pending| - 1], id) + if pending[|pending| - 1].id == id then [] else [pending[|pending| - 1]]
  }

  lemma {:induction false} WithoutKeeps(pending: seq<Pending>, id: int, p: Pending)
    ensures p in Without(pending, id) <==> p in pending && p.id != id
  {
    if pending != [] {
      var n := |pending| - 1;
      WithoutKeeps(pending[..n], id, p);
      assert pending == pending[..n] + [pending[n]];
    }
  }

  class TableServer {
    const ledger: L.ChipLedger
    const game: G.GameState
    var pending: seq<Pending>
    const minBuyIn: Chips
    const maxBuyIn: Chips

    ghost function World(): Ownership.World
      reads this, ledger, game, game.players, game.rngDealer, game.rngDealer.deck
    {
      Ownership.World(ledger.Snap(), game.Snap())
    }

    ghost predicate Valid()
      reads this, ledger, game, game.players, game.rngDealer, game.rngDealer.deck
    {
      game.Valid() && L.InOrder(ledger.accounts)
    }

    constructor (ledger: L.ChipLedger, game: G.GameState, minBuyIn: Chips, maxBuyIn: Chips)
      requires game.Valid() && L.InOrder(ledger.accounts)
      ensures Valid() && this.ledger == ledger && this.game == game && pending == []
      ensures this.minBuyIn == minBuyIn && this.maxBuyIn == maxBuyIn
    {
      this.ledger, this.game, pending := ledger, game, [];
      this.minBuyIn, this.maxBuyIn := minBuyIn, maxBuyIn;
    }

    /** The limits check of the buy-in. */
    predicate WithinLimits(amount: Chips) {
      amount > 0 && minBuyIn <= amount <= maxBuyIn
    }

    method DebitBuyIn(id: int, amount: Chips, fault: L.Fault) returns (ok: bool)
      requires L.InOrder(ledger.accounts)
      modifies ledger, this`pending
      ensures L.InOrder(ledger.accounts) && ok == Debit(old(ledger.Snap()), id, amount, fault).Success?
      ensures ledger.Snap() == AfterDebit(old(ledger.Snap()), id, amount, fault)
      ensures pending == if ok && id > 0 then old(pending) + [Pending(id, amount)] else old(pending)
    {
      if id <= 0 { return true; }
      var result := ledger.DebitBuyIn(id, amount, fault);
      ok := result.Success?;
      if ok { pending := pending + [Pending(id, amount)]; }
    }

    /** creditCashOut and refundBuyIn. */
    method Credit(id: int, amount: Chips, kind: L.TxKind, fault: L.Fault) returns (ok: bool)
      requires L.InOrder(ledger.accounts) && kind in {L.CashOut, L.Refund}
      modifies ledger
      ensures L.InOrder(ledger.accounts) && ok == CreditGoes(old(ledger.Snap()), id, amount, fault)
      ensures ledger.Snap() == AfterCredit(old(ledger.Snap()), id, amount, kind, fault)
    {
      if id <= 0 || amount <= 0 { return true; }
      var result := ledger.Credit(id, amount, kind, fault);
      ok := result.Success?;
    }

    method ClearPending(id: int)
      modifies this`pending
      ensures pending == Without(old(pending), id)
    {
      var kept: seq<Pending> := [];
      var i := 0;
      while i < |pending|
        invariant 0 <= i <= |pending| && pending == old(pending) && kept == Without(pending[..i], id)
      {
        assert pending[..i + 1][..i] == pending[..i];
        if pending[i].id != id { kept := kept + [pending[i]]; }
        i := i + 1;
      }
      assert pending[..i] == pending;
      pending := kept;
    }

    /** Debit, seat, and refund if the seat is refused. No buy-in stays pending either way. */
    method SeatPlayerWithBuyIn(id: int, amount: Chips, seat: nat, debitFault: L.Fault, refundFault: L.Fault) returns (ok: bool)
      requires Valid()
      modifies this`pending, ledger, game.players
      ensures Valid()
      ensures var within := amount > 0 && minBuyIn <= amount && amount <= maxBuyIn;
        World() == AfterBuyIn(old(World()), id, amount, seat, within, debitFault, refundFault)
      ensures pending == if WithinLimits(amount) && Debit(old(World()).books, id, amount, debitFault).Success?
                         then Without(old(pending), id) else old(pending)
      ensures ok <==> && WithinLimits(amount) && Debit(old(World()).books, id, amount, debitFault).Success?
                      && AddPlayerAtSeat(old(World()).table, id, amount, seat).Accepted?
    {
      if !WithinLimits(amount) { return false; }
      var paid := DebitBuyIn(id, amount, debitFault);
      if !paid { return false; }
      PendingGone(old(pending), id, amount);
      ok := FinishBuyIn(id, amount, seat, refundFault);
    }

    method FinishBuyIn(id: int, amount: Chips, seat: nat, fault: L.Fault) returns (ok: bool)
      requires Valid() && amount >= 0
      modifies this`pending, ledger, game.players
      ensures Valid() && pending == Without(old(pending), id)
      ensures var w := old(World()); match AddPlayerAtSeat(w.table, id, amount, seat)
        case Accepted(seated) => ok && World() == Ownership.World(w.books, seated)
        case Rejected => !ok && World() == Ownership.World(AfterCredit(w.books, id, amount, L.Refund, fault), w.table)
    {
      ok := JoinOrRefund(id, amount, seat, fault);
      ClearPending(id);
    }

    method JoinOrRefund(id: int, amount: Chips, seat: nat, fault: L.Fault) returns (ok: bool)
      requires Valid() && amount >= 0
      modifies ledger, game.players
      ensures Valid()
      ensures var w := old(World()); match AddPlayerAtSeat(w.table, id, amount, seat)
        case Accepted(seated) => ok && World() == Ownership.World(w.books, seated)
        case Rejected => !ok && World() == Ownership.World(AfterCredit(w.books, id, amount, L.Refund, fault), w.table)
    {
      ok := game.AddPlayerAtSeat(id, amount, seat);
      if !ok { var refunded := Credit(id, amount, L.Refund, fault); }
    }

    /** Cash out now, or at the end of the hand for a player still in it. */
    method LeaveTableWithCashOut(id: int, fault: L.Fault) returns (left: bool, cashedOut: Chips)
      requires Valid()
      modifies ledger, game, game.players, game.potManager, game.rngDealer`deckIndex
      ensures Valid() && World() == AfterLeave(old(World()), id, fault)
      ensures left <==> id > 0 && HandSpec.RequestCashOut(old(World()).table, id).CashOut?
      ensures cashedOut == if left then HandSpec.RequestCashOut(old(World()).table, id).stack else 0
    {
      left, cashedOut := false, 0;
      if id <= 0 { return; }
      var reply := game.RequestCashOut(id);
      if reply.NotAtTable? { return; }
      left, cashedOut := true, reply.stack;
      if cashedOut > 0 { var credited := Credit(id, cashedOut, L.CashOut, fault); }
    }

    /** The hand-end sweep: seats marked as leaving are emptied and their stacks credited. */
    method SweepLeavers(faults: nat -> L.Fault)
      requires Valid()
      modifies ledger, game.players
      ensures Valid() && World() == AfterSweep(old(World()), faults)
    {
      var credits := game.VacateLeavingPlayers();
      CreditAll(credits, faults);
    }

    method CreditAll(credits: seq<Credit>, faults: nat -> L.Fault)
      requires L.InOrder(ledger.accounts)
      modifies ledger
      ensures L.InOrder(ledger.accounts) && ledger.Snap() == Swept(old(ledger.Snap()), credits, |credits|, faults)
    {
      ghost var b := ledger.Snap();
      var i := 0;
      while i < |credits|
        invariant 0 <= i <= |credits| && L.InOrder(ledger.accounts)
        invariant ledger.Snap() == Swept(b, credits, i, faults)
      {
        CreditOne(credits[i], faults(i));
        SweptNext(b, credits, i, faults);
        i := i + 1;
      }
    }

    method CreditOne(credit: Credit, fault: L.Fault)
      requires L.InOrder(ledger.accounts)
      modifies ledger
      ensures L.InOrder(ledger.accounts) && ledger.Snap() == AfterCredit(old(ledger.Snap()), credit.id, credit.chips, L.CashOut, fault)
    {
      if credit.chips > 0 { var ok := Credit(credit.id, credit.chips, L.CashOut, fault); }
    }
  }

  lemma {:induction false} SweptNext(b: L.Books, credits: seq<Credit>, i: nat, faults: nat -> L.Fault)
    requires L.InOrder(b.accounts) && i < |credits|
    ensures var c := credits[i];
      Swept(b, credits, i + 1, faults) == AfterCredit(Swept(b, credits, i, faults), c.id, c.chips, L.CashOut, faults(i))
  {
  }

  lemma {:induction false} PendingGone(pending: seq<Pending>, id: int, amount: Chips)
    ensures Without(pending + [Pending(id, amount)], id) == Without(pending, id)
  {
    assert (pending + [Pending(id, amount)])[..|pending|] == pending;
  }
}
