/** Whose chips move: what each step of the table server (cli/poker_ws_server.cpp) does to every single
    balance and seat. */
module Balances {
  import opened Cards
  import opened Seats
  import opened HandSpec
  import opened Payout
  import opened Ownership
  import L = ChipLedger

  // ---------- one movement ----------

  /** The balance fits the ledger's integer. */
  predicate Sane(b: L.Balance) {
    b.Chips? ==> 0 <= b.amount <= L.INT64_MAX
  }

  /** The account exists, the new balance fits, and neither write is lost. */
  predicate GoesThrough(b: L.Books, id: int, delta: int, fault: L.Fault) {
    var was := L.Lookup(b.accounts, id);
    id > 0 && delta != 0 && was.Chips? && 0 <= was.amount + delta <= L.INT64_MAX && fault.NoFault?
  }

  function Plus(b: L.Balance, change: int): L.Balance {
    match b
    case NoAccount => L.NoAccount
    case Chips(amount) => L.Balance.Chips(amount + change)
  }

  lemma {:induction false} GoesIff(b: L.Books, id: int, delta: int, fault: L.Fault)
    requires Sane(L.Lookup(b.accounts, id))
    ensures L.ResultOf(b, id, delta, fault).Success? <==> GoesThrough(b, id, delta, fault)
    ensures GoesThrough(b, id, delta, fault) ==>
      L.ResultOf(b, id, delta, fault).balanceAfter == L.Lookup(b.accounts, id).amount + delta
  {
  }

  lemma {:induction false} DeltaSucceeds(b: L.Books, id: int, delta: int, kind: L.TxKind, fault: L.Fault, next: int, x: int)
    requires L.InOrder(b.accounts) && L.ResultOf(b, id, delta, fault) == L.Success(next)
    ensures L.Lookup(L.AfterDelta(b, id, delta, kind, fault).accounts, x) ==
      if x == id then L.Balance.Chips(next) else L.Lookup(b.accounts, x)
  {
    L.LookupPut(b.accounts, id, next, x);
  }

  /** What a delta does to the balance of x: exactly then it moves that balance by its amount, if it is
      his, and leaves one row that says so; otherwise nothing changes. */
  lemma {:induction false} DeltaDoes(b: L.Books, id: int, delta: int, kind: L.TxKind, fault: L.Fault, x: int)
    requires L.InOrder(b.accounts) && Sane(L.Lookup(b.accounts, id))
    ensures var r := L.AfterDelta(b, id, delta, kind, fault);
      if GoesThrough(b, id, delta, fault)
      then L.Lookup(r.accounts, x) == Plus(L.Lookup(b.accounts, x), if x == id then delta else 0)
           && r.log == b.log + [L.Tx(id, kind, delta, L.Lookup(b.accounts, id).amount + delta)]
      else r == b
  {
    GoesIff(b, id, delta, fault);
    if GoesThrough(b, id, delta, fault) { DeltaSucceeds(b, id, delta, kind, fault, L.Lookup(b.accounts, id).amount + delta, x); }
  }

  /** Whether a movement goes through depends on that account alone. */
  lemma {:induction false} OwnAccountOnly(b: L.Books, c: L.Books, id: int, delta: int, fault: L.Fault)
    requires L.Lookup(b.accounts, id) == L.Lookup(c.accounts, id)
    ensures GoesThrough(b, id, delta, fault) <==> GoesThrough(c, id, delta, fault)
  {
  }

  // ---------- buying in ----------

  /** The seat is free and the id is at no other. */
  ghost predicate MaySit(t: Table, id: int, seat: nat) {
    && seat < |t.seats| && t.seats[seat].state == Empty
    && forall i :: 0 <= i < |t.seats| && t.seats[i].state != Empty ==> t.seats[i].id != id
  }

  function SeatedAt(t: Table, id: int, chips: Chips, seat: nat): Table
    requires seat < |t.seats|
  {
    t.(seats := t.seats[seat := t.seats[seat].(id := id, chips := chips, state := Sitting)])
  }

  lemma {:induction false} SitsIff(t: Table, id: int, chips: Chips, seat: nat)
    ensures AddPlayerAtSeat(t, id, chips, seat).Accepted? <==> MaySit(t, id, seat)
    ensures MaySit(t, id, seat) ==> AddPlayerAtSeat(t, id, chips, seat).after == SeatedAt(t, id, chips, seat)
  {
  }

  /** What a buy-in does to the balance of x: it takes the amount from the buyer's balance and puts it in
      front of him; if the seat is refused he has it back, unless the refund is lost; and no other
      balance or seat changes. */
  lemma {:induction false} BuyInDoes(w: World, id: int, amount: Chips, seat: nat, within: bool, df: L.Fault, rf: L.Fault, x: int)
    requires L.InOrder(w.books.accounts) && Sane(L.Lookup(w.books.accounts, id)) && id > 0 && (within ==> amount > 0)
    ensures var r := AfterBuyIn(w, id, amount, seat, within, df, rf);
      if !within || !GoesThrough(w.books, id, -amount, df) then r == w
      else
        var seated := MaySit(w.table, id, seat);
        && r.table == (if seated then SeatedAt(w.table, id, amount, seat) else w.table)
        && L.Lookup(r.books.accounts, x) ==
             Plus(L.Lookup(w.books.accounts, x), if x == id && (seated || !rf.NoFault?) then -amount else 0)
  {
    if within {
      GoesIff(w.books, id, -amount, df);
      if GoesThrough(w.books, id, -amount, df) {
        SitsIff(w.table, id, amount, seat);
        PaidAndRefunded(w.books, id, amount, df, rf, x);
      }
    }
  }

  lemma {:induction false} RefundDoes(paid: L.Books, id: int, amount: Chips, fault: L.Fault, left: int, x: int)
    requires L.InOrder(paid.accounts) && id > 0 && amount > 0 && 0 <= left && left + amount <= L.INT64_MAX
    requires L.Lookup(paid.accounts, id) == L.Balance.Chips(left)
    ensures L.Lookup(AfterCredit(paid, id, amount, L.Refund, fault).accounts, x) ==
      Plus(L.Lookup(paid.accounts, x), if x == id && fault.NoFault? then amount else 0)
    ensures AfterCredit(paid, id, amount, L.Refund, fault).log ==
      paid.log + if fault.NoFault? then [L.Tx(id, L.Refund, amount, left + amount)] else []
  {
    DeltaDoes(paid, id, amount, L.Refund, fault, x);
  }

  lemma {:induction false} PaidDoes(b: L.Books, id: int, amount: Chips, fault: L.Fault, x: int)
    requires L.InOrder(b.accounts) && Sane(L.Lookup(b.accounts, id)) && amount > 0 && GoesThrough(b, id, -amount, fault)
    ensures L.Lookup(AfterDebit(b, id, amount, fault).accounts, x) == Plus(L.Lookup(b.accounts, x), if x == id then -amount else 0)
    ensures AfterDebit(b, id, amount, fault).log == b.log + [L.Tx(id, L.BuyIn, -amount, L.Lookup(b.accounts, id).amount - amount)]
  {
    DeltaDoes(b, id, -amount, L.BuyIn, fault, x);
  }

  lemma {:induction false} PaidAndRefunded(b: L.Books, id: int, amount: Chips, df: L.Fault, rf: L.Fault, x: int)
    requires L.InOrder(b.accounts) && Sane(L.Lookup(b.accounts, id)) && amount > 0 && GoesThrough(b, id, -amount, df)
    ensures var paid := AfterDebit(b, id, amount, df);
      && L.Lookup(paid.accounts, x) == Plus(L.Lookup(b.accounts, x), if x == id then -amount else 0)
      && L.Lookup(AfterCredit(paid, id, amount, L.Refund, rf).accounts, x) ==
           Plus(L.Lookup(b.accounts, x), if x == id && !rf.NoFault? then -amount else 0)
  {
    PaidDoes(b, id, amount, df, x);
    PaidDoes(b, id, amount, df, id);
    RefundDoes(AfterDebit(b, id, amount, df), id, amount, rf, L.Lookup(b.accounts, id).amount - amount, x);
  }

  /** The rows it leaves: the debit, and the refund if there is one. */
  lemma {:induction false} BuyInRows(w: World, id: int, amount: Chips, seat: nat, within: bool, df: L.Fault, rf: L.Fault)
    requires L.InOrder(w.books.accounts) && Sane(L.Lookup(w.books.accounts, id)) && id > 0 && within && amount > 0
    requires GoesThrough(w.books, id, -amount, df)
    ensures var was, log := L.Lookup(w.books.accounts, id).amount, AfterBuyIn(w, id, amount, seat, within, df, rf).books.log;
      var paid := w.books.log + [L.Tx(id, L.BuyIn, -amount, was - amount)];
      log == if MaySit(w.table, id, seat) || !rf.NoFault? then paid else paid + [L.Tx(id, L.Refund, amount, was)]
  {
    GoesIff(w.books, id, -amount, df);
    SitsIff(w.table, id, amount, seat);
    PaidDoes(w.books, id, amount, df, id);
    RefundDoes(AfterDebit(w.books, id, amount, df), id, amount, rf, L.Lookup(w.books.accounts, id).amount - amount, id);
  }

  // ---------- leaving ----------

  function Emptied(s: Seat): Seat {
    s.(id := 0, chips := 0, state := Empty, hole := Undealt, bet := 0, invested := 0, leaving := false)
  }

  /** Asking to leave: in a hand the player folds, or stays in all-in, and keeps his seat until it is
      over; otherwise the seat is emptied and its stack handed over. */
  lemma {:induction false} CashOutDoes(t: Table, id: int, i: nat)
    requires t.Shaped() && IdsApart(t.seats) && i < |t.seats| && t.seats[i].state != Empty && t.seats[i].id == id
    ensures var s := t.seats[i];
      RequestCashOut(t, id) ==
        if t.live && s.state == Playing
        then CashOut(Settle(t.(seats := t.seats[i := s.(state := Folded, acted := true, leaving := true)])), 0)
        else if t.live && s.state == AllIn then CashOut(t.(seats := t.seats[i := s.(leaving := true)]), 0)
        else CashOut(t.(seats := t.seats[i := Emptied(s)]), s.chips)
  {
    assert OccupiedSeatOf(t.seats, id) == i;
  }

  /** What leaving does to the balance of x: the one who leaves is credited with the stack of his seat,
      unless that is lost. */
  lemma {:induction false} LeaveDoes(w: World, id: int, i: nat, fault: L.Fault, x: int)
    requires L.InOrder(w.books.accounts) && Sane(L.Lookup(w.books.accounts, id)) && w.table.Shaped() && IdsApart(w.table.seats)
    requires id > 0 && i < |w.table.seats| && w.table.seats[i].state != Empty && w.table.seats[i].id == id && w.table.seats[i].chips >= 0
    ensures var r, t, s := AfterLeave(w, id, fault), w.table, w.table.seats[i];
      if t.live && s.state in {Playing, AllIn} then r.books == w.books && r.table == RequestCashOut(t, id).after
      else r.table == t.(seats := t.seats[i := Emptied(s)]) &&
           L.Lookup(r.books.accounts, x) ==
             Plus(L.Lookup(w.books.accounts, x), if x == id && GoesThrough(w.books, id, s.chips, fault) then s.chips else 0) &&
           r.books.log == w.books.log + if GoesThrough(w.books, id, s.chips, fault)
                                        then [L.Tx(id, L.CashOut, s.chips, L.Lookup(w.books.accounts, id).amount + s.chips)] else []
  {
    CashOutDoes(w.table, id, i);
    DeltaDoes(w.books, id, w.table.seats[i].chips, L.CashOut, fault, x);
  }

  /** An id that is at no seat leaves nothing. */
  lemma {:induction false} NobodyLeaves(w: World, id: int, fault: L.Fault)
    requires L.InOrder(w.books.accounts) && w.table.Shaped()
    requires forall i :: 0 <= i < |w.table.seats| && w.table.seats[i].state != Empty ==> w.table.seats[i].id != id
    ensures AfterLeave(w, id, fault) == w
  {
    assert OccupiedSeatOf(w.table.seats, id) == -1;
  }

  // ---------- the sweep at the end of a hand ----------

  predicate IsLeaving(s: Seat) { s.state != Empty && s.leaving }

  function OneIfLeaving(s: Seat): int { if IsLeaving(s) then 1 else 0 }

  /** How many seats before seat i are leaving: where its credit comes in the list. */
  function Turn(seats: seq<Seat>, i: nat): int
    requires i <= |seats|
  {
    Sum(seats[..i], OneIfLeaving)
  }

  /** Every leaving seat has its credit in the list, in the order of the seats. */
  lemma {:induction false} CreditOf(seats: seq<Seat>, i: nat)
    requires i < |seats| && IsLeaving(seats[i])
    ensures 0 <= Turn(seats, i) < |LeavingCredits(seats)|
    ensures LeavingCredits(seats)[Turn(seats, i)] == Credit(seats[i].id, seats[i].chips)
  {
    var k := |seats| - 1;
    CreditCount(seats[..k]);
    assert seats[..k][..k] == seats[..k];
    if i < k {
      CreditOf(seats[..k], i);
      assert seats[..k][..i] == seats[..i];
    }
  }

  lemma {:induction false} CreditCount(seats: seq<Seat>)
    ensures |LeavingCredits(seats)| == Turn(seats, |seats|)
  {
    assert seats[..|seats|] == seats;
    if seats != [] {
      var k := |seats| - 1;
      CreditCount(seats[..k]);
      assert seats[..k][..k] == seats[..k];
    }
  }

  /** And there are no others. */
  lemma {:induction false} CreditFrom(seats: seq<Seat>, n: nat) returns (i: nat)
    requires n < |LeavingCredits(seats)|
    ensures i < |seats| && IsLeaving(seats[i]) && Turn(seats, i) == n
  {
    var k := |seats| - 1;
    CreditCount(seats[..k]);
    assert seats[..k][..k] == seats[..k];
    if n < |LeavingCredits(seats[..k])| {
      i := CreditFrom(seats[..k], n);
      assert seats[..k][..i] == seats[..i];
    } else {
      i := k;
    }
  }

  /** The table after the sweep: leaving seats emptied, the others as they were. */
  lemma {:induction false} SweepEmpties(t: Table)
    ensures VacateLeaving(t).0 == t.(seats := VacateLeaving(t).0.seats) && |VacateLeaving(t).0.seats| == |t.seats|
    ensures forall i :: 0 <= i < |t.seats| ==>
      VacateLeaving(t).0.seats[i] == if !t.live && IsLeaving(t.seats[i]) then Emptied(t.seats[i]) else t.seats[i]
    ensures VacateLeaving(t).1 == if t.live then [] else LeavingCredits(t.seats)
  {
  }

  /** A credit moves no other balance. */
  lemma {:induction false} OthersKeep(b: L.Books, credits: seq<Credit>, n: nat, faults: nat -> L.Fault, id: int)
    requires L.InOrder(b.accounts) && n <= |credits| && forall m :: 0 <= m < n ==> credits[m].id != id
    ensures L.Lookup(Swept(b, credits, n, faults).accounts, id) == L.Lookup(b.accounts, id)
  {
    if n > 0 {
      var c, m := credits[n - 1], Swept(b, credits, n - 1, faults);
      CreditKeeps(m, c.id, c.chips, faults(n - 1), id);
      OthersKeep(b, credits, n - 1, faults, id);
    }
  }

  lemma {:induction false} CreditKeeps(b: L.Books, id: int, amount: Chips, fault: L.Fault, other: int)
    requires L.InOrder(b.accounts) && other != id
    ensures L.Lookup(AfterCredit(b, id, amount, L.CashOut, fault).accounts, other) == L.Lookup(b.accounts, other)
  {
    if id > 0 && amount > 0 {
      match L.ResultOf(b, id, amount, fault) {
        case Failure(_) =>
        case Success(next) => L.LookupPut(b.accounts, id, next, other);
      }
    }
  }

  lemma {:induction false} LastCredit(b: L.Books, before: L.Books, c: Credit, fault: L.Fault)
    requires L.InOrder(before.accounts) && c.id > 0 && c.chips >= 0 && Sane(L.Lookup(b.accounts, c.id))
    requires L.Lookup(before.accounts, c.id) == L.Lookup(b.accounts, c.id)
    ensures L.Lookup(AfterCredit(before, c.id, c.chips, L.CashOut, fault).accounts, c.id) ==
      Plus(L.Lookup(b.accounts, c.id), if GoesThrough(b, c.id, c.chips, fault) then c.chips else 0)
  {
    OwnAccountOnly(before, b, c.id, c.chips, fault);
    DeltaDoes(before, c.id, c.chips, L.CashOut, fault, c.id);
  }

  /** The balance of the one who is credited by entry m, and by no other. */
  lemma {:induction false} OneCredit(b: L.Books, credits: seq<Credit>, n: nat, faults: nat -> L.Fault, m: nat)
    requires L.InOrder(b.accounts) && m < n <= |credits| && credits[m].id > 0 && credits[m].chips >= 0
    requires Sane(L.Lookup(b.accounts, credits[m].id))
    requires forall j :: 0 <= j < n && j != m ==> credits[j].id != credits[m].id
    ensures var id, chips := credits[m].id, credits[m].chips;
      L.Lookup(Swept(b, credits, n, faults).accounts, id) ==
        Plus(L.Lookup(b.accounts, id), if GoesThrough(b, id, chips, faults(m)) then chips else 0)
    decreases n
  {
    var before := Swept(b, credits, n - 1, faults);
    if m < n - 1 {
      OneCredit(b, credits, n - 1, faults, m);
      CreditKeeps(before, credits[n - 1].id, credits[n - 1].chips, faults(n - 1), credits[m].id);
    } else {
      OthersKeep(b, credits, m, faults, credits[m].id);
      LastCredit(b, before, credits[m], faults(m));
    }
  }

  /** After the sweep each player who was leaving has the stack of his own seat, unless that credit is
      lost. */
  lemma {:induction false} SweepDoes(w: World, faults: nat -> L.Fault, i: nat)
    requires L.InOrder(w.books.accounts) && IdsApart(w.table.seats) && !w.table.live
    requires i < |w.table.seats| && IsLeaving(w.table.seats[i]) && w.table.seats[i].id > 0 && w.table.seats[i].chips >= 0
    requires Sane(L.Lookup(w.books.accounts, w.table.seats[i].id))
    ensures var s, n := w.table.seats[i], Turn(w.table.seats, i);
      n >= 0 && L.Lookup(AfterSweep(w, faults).books.accounts, s.id) ==
        Plus(L.Lookup(w.books.accounts, s.id), if GoesThrough(w.books, s.id, s.chips, faults(n)) then s.chips else 0)
  {
    var seats := w.table.seats;
    var credits, m := LeavingCredits(seats), Turn(seats, i);
    CreditOf(seats, i);
    forall n | 0 <= n < |credits| && n != m ensures credits[n].id != credits[m].id {
      var j := CreditFrom(seats, n);
      CreditOf(seats, j);
    }
    OneCredit(w.books, credits, |credits|, faults, m);
  }

  /** And nobody else's balance moves. */
  lemma {:induction false} SweepKeeps(w: World, faults: nat -> L.Fault, id: int)
    requires L.InOrder(w.books.accounts)
    requires forall i :: 0 <= i < |w.table.seats| && IsLeaving(w.table.seats[i]) ==> w.table.seats[i].id != id
    ensures L.Lookup(AfterSweep(w, faults).books.accounts, id) == L.Lookup(w.books.accounts, id)
  {
    var seats := w.table.seats;
    var credits := VacateLeaving(w.table).1;
    forall n | 0 <= n < |credits| ensures credits[n].id != id {
      var j := CreditFrom(seats, n);
      CreditOf(seats, j);
    }
    OthersKeep(w.books, credits, |credits|, faults, id);
  }

  /** From the first n rows on, every row is a cash-out of one of the stacks. */
  ghost predicate CashOutsFrom(log: seq<L.Tx>, n: nat, credits: seq<Credit>) {
    forall i :: n <= i < |log| ==> CashedOut(log[i], credits)
  }

  /** The rows the sweep leaves are cash-outs, each of one of the stacks swept. */
  lemma {:induction false} SweepRows(b: L.Books, credits: seq<Credit>, n: nat, faults: nat -> L.Fault)
    requires L.InOrder(b.accounts) && n <= |credits|
    ensures var log := Swept(b, credits, n, faults).log; b.log <= log && CashOutsFrom(log, |b.log|, credits[..n])
  {
    if n > 0 {
      SweepRows(b, credits, n - 1, faults);
      var before, c := Swept(b, credits, n - 1, faults), credits[n - 1];
      OneRow(before, c, faults(n - 1));
      RowsGrow(before.log, Swept(b, credits, n, faults).log, |b.log|, credits[..n - 1], c);
      assert credits[..n] == credits[..n - 1] + [c];
    }
  }

  lemma {:induction false} RowsGrow(before: seq<L.Tx>, log: seq<L.Tx>, n: nat, credits: seq<Credit>, c: Credit)
    requires n <= |before| && CashOutsFrom(before, n, credits) && OneRowMore(before, log, c)
    ensures CashOutsFrom(log, n, credits + [c])
  {
    forall i | n <= i < |log| ensures CashedOut(log[i], credits + [c]) {
      if i < |before| {
        assert log[i] == before[i];
        MoreCredits(before[i], credits, c);
      } else {
        assert (credits + [c])[|credits|] == c;
      }
    }
  }

  ghost predicate CashedOut(row: L.Tx, credits: seq<Credit>) {
    row.kind == L.CashOut && exists m :: 0 <= m < |credits| && credits[m].id == row.player && credits[m].chips == row.amount
  }

  lemma {:induction false} MoreCredits(row: L.Tx, credits: seq<Credit>, c: Credit)
    requires CashedOut(row, credits)
    ensures CashedOut(row, credits + [c])
  {
    var m :| 0 <= m < |credits| && credits[m].id == row.player && credits[m].chips == row.amount;
    assert (credits + [c])[m] == credits[m];
  }

  predicate OneRowMore(before: seq<L.Tx>, log: seq<L.Tx>, c: Credit) {
    log == before || (|log| == |before| + 1 && log[..|before|] == before
                      && var row := log[|before|]; row.kind == L.CashOut && row.player == c.id && row.amount == c.chips)
  }

  lemma {:induction false} OneRow(b: L.Books, c: Credit, fault: L.Fault)
    requires L.InOrder(b.accounts)
    ensures OneRowMore(b.log, AfterCredit(b, c.id, c.chips, L.CashOut, fault).log, c)
  {
  }
}
