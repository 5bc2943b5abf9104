/** Wallet balances and their append-only log (phase14/src/chip_ledger.cpp and
    phase14/src/account_repository.cpp). A committed or rolled-back transaction is one call. */
module ChipLedger {

  const INT64_MAX: int := 0x7FFF_FFFF_FFFF_FFFF
  const INT64_MIN: int := -0x8000_0000_0000_0000

  datatype TxKind = Grant | BuyIn | CashOut | Refund | Bonus

  datatype Account = Account(id: int, chips: int)
  datatype Tx = Tx(player: int, kind: TxKind, amount: int, balanceAfter: int)

  /** The accounts in id order, and the log in insertion order. */
  datatype Books = Books(accounts: seq<Account>, log: seq<Tx>)

  datatype Balance = NoAccount | Chips(amount: int)

  datatype Refusal =
    | InvalidPlayerId | ZeroAmount | InvalidAmount | AccountNotFound | Overflow | InsufficientChips
    | ConcurrentUpdate | LedgerInsertFailed

  datatype LedgerResult = Success(balanceAfter: int) | Failure(error: Refusal)

  /** What the database may do to a statement: nothing, or make it touch no row. */
  datatype Fault = NoFault | UpdateLost | InsertLost

  // ---------- the accounts table ----------

  predicate Before(a: Account, b: Account) { a.id < b.id }

  predicate InOrder(accounts: seq<Account>) {
    forall i, j {:trigger Before(accounts[i], accounts[j])} :: 0 <= i < j < |accounts| ==> Before(accounts[i], accounts[j])
  }

  /** One more account, after all the others. */
  lemma {:induction false} OneMore(accounts: seq<Account>, a: Account)
    requires InOrder(accounts) && (accounts != [] ==> accounts[|accounts| - 1].id < a.id)
    ensures InOrder(accounts + [a]) && forall i :: 0 <= i < |accounts| ==> accounts[i].id < a.id
  {
    var n := |accounts| - 1;
    forall i | 0 <= i < |accounts| ensures Before(accounts[i], a) {
      if i < n { assert Before(accounts[i], accounts[n]); }
    }
    forall i, j | 0 <= i < j < |accounts + [a]| ensures Before((accounts + [a])[i], (accounts + [a])[j]) {
      if j <= n { assert Before(accounts[i], accounts[j]); }
    }
  }

  lemma {:induction false} AllButLast(accounts: seq<Account>)
    requires InOrder(accounts) && accounts != []
    ensures var n := |accounts| - 1;
      InOrder(accounts[..n]) && accounts == accounts[..n] + [accounts[n]] && (n > 0 ==> accounts[n - 1].id < accounts[n].id)
  {
    var n := |accounts| - 1;
    forall i, j | 0 <= i < j < n ensures Before(accounts[..n][i], accounts[..n][j]) {
      assert Before(accounts[i], accounts[j]);
    }
    if n > 0 { assert Before(accounts[n - 1], accounts[n]); }
  }

  function Lookup(accounts: seq<Account>, id: int): Balance {
    if accounts == [] then NoAccount
    else
      var n := |accounts| - 1;
      if accounts[n].id == id then Chips(accounts[n].chips) else Lookup(accounts[..n], id)
  }

  /** Insert or replace by primary key. */
  function Put(accounts: seq<Account>, id: int, chips: int): (r: seq<Account>)
    requires InOrder(accounts)
    ensures InOrder(r) && r != []
    ensures r[|r| - 1].id == if accounts == [] || accounts[|accounts| - 1].id <= id then id else accounts[|accounts| - 1].id
  {
    if accounts == [] then [Account(id, chips)]
    else
      var n := |accounts| - 1;
      AllButLast(accounts);
      if accounts[n].id == id then OneMore(accounts[..n], Account(id, chips)); accounts[..n] + [Account(id, chips)]
      else if accounts[n].id < id then OneMore(accounts, Account(id, chips)); accounts + [Account(id, chips)]
      else
        var rest := Put(accounts[..n], id, chips);
        OneMore(rest, accounts[n]); rest + [accounts[n]]
  }

  lemma {:induction false} NotThere(accounts: seq<Account>, id: int)
    requires forall i :: 0 <= i < |accounts| ==> accounts[i].id != id
    ensures Lookup(accounts, id).NoAccount?
  {
    if accounts != [] { NotThere(accounts[..|accounts| - 1], id); }
  }

  lemma {:induction false} LookupMember(accounts: seq<Account>, id: int, chips: int)
    requires InOrder(accounts)
    ensures Lookup(accounts, id) == Chips(chips) <==> Account(id, chips) in accounts
  {
    if accounts != [] {
      var n := |accounts| - 1;
      AllButLast(accounts);
      OneMore(accounts[..n], accounts[n]);
      LookupMember(accounts[..n], id, chips);
    }
  }

  lemma {:induction false} LookupPut(accounts: seq<Account>, id: int, chips: int, other: int)
    requires InOrder(accounts)
    ensures Lookup(Put(accounts, id, chips), other) == if other == id then Chips(chips) else Lookup(accounts, other)
  {
    if accounts != [] {
      var n := |accounts| - 1;
      var rest := Put(accounts[..n], id, chips);
      LookupPut(accounts[..n], id, chips, other);
      assert (accounts[..n] + [Account(id, chips)])[..n] == accounts[..n];
      assert (accounts + [Account(id, chips)])[..n + 1] == accounts;
      assert (rest + [accounts[n]])[..|rest|] == rest;
    }
  }

  // ---------- the operations ----------

  /** The signed sum of a player's rows. */
  function Signed(log: seq<Tx>, id: int): int {
    if log == [] then 0
    else Signed(log[..|log| - 1], id) + if log[|log| - 1].player == id then log[|log| - 1].amount else 0
  }

  /** The guard against int64 wrap-around. */
  predicate Wraps(current: int, delta: int) {
    (delta > 0 && current > INT64_MAX - delta) || (delta < 0 && current < INT64_MIN - delta)
  }

  function ResultOf(b: Books, id: int, delta: int, fault: Fault): LedgerResult {
    if id <= 0 then Failure(InvalidPlayerId)
    else if delta == 0 then Failure(ZeroAmount)
    else match Lookup(b.accounts, id)
      case NoAccount => Failure(AccountNotFound)
      case Chips(current) =>
        if Wraps(current, delta) then Failure(Overflow)
        else if current + delta < 0 then Failure(InsufficientChips)
        else if fault == UpdateLost then Failure(ConcurrentUpdate)
        else if fault == InsertLost then Failure(LedgerInsertFailed)
        else Success(current + delta)
  }

  /** A failing change leaves the books alone; a succeeding one sets the balance and adds its row. */
  function AfterDelta(b: Books, id: int, delta: int, kind: TxKind, fault: Fault): (r: Books)
    requires InOrder(b.accounts)
    ensures InOrder(r.accounts)
  {
    match ResultOf(b, id, delta, fault)
    case Failure(_) => b
    case Success(next) => Books(Put(b.accounts, id, next), b.log + [Tx(id, kind, delta, next)])
  }

  function AfterSave(b: Books, id: int, chips: int): Books
    requires InOrder(b.accounts)
  {
    Books(Put(b.accounts, id, chips), b.log + [Tx(id, Grant, chips, chips)])
  }

  function RowsExcept(log: seq<Tx>, id: int): seq<Tx> {
    if log == [] then []
    else RowsExcept(log[..|log| - 1], id) + if log[|log| - 1].player == id then [] else [log[|log| - 1]]
  }

  /** The account row stays, emptied; its log rows go. */
  function AfterDelete(b: Books, id: int): Books
    requires InOrder(b.accounts)
  {
    Books(if Lookup(b.accounts, id).Chips? then Put(b.accounts, id, 0) else b.accounts, RowsExcept(b.log, id))
  }

  // ---------- agreement ----------

  predicate InRange(chips: int) { 0 <= chips <= INT64_MAX }

  /** The balance is the signed sum of the player's rows. */
  ghost predicate Balanced(b: Books, id: int) {
    Lookup(b.accounts, id).Chips? ==> Lookup(b.accounts, id).amount == Signed(b.log, id)
  }

  /** Every balance is backed by the log, and every row records the balance it left. */
  ghost predicate Agree(b: Books) {
    && InOrder(b.accounts)
    && (forall id :: Balanced(b, id))
    && (forall i :: 0 <= i < |b.log| ==> RowOk(b, i))
  }

  ghost predicate RowOk(b: Books, i: nat)
    requires i < |b.log|
  {
    && Lookup(b.accounts, b.log[i].player).Chips?
    && b.log[i].balanceAfter == Signed(b.log[..i + 1], b.log[i].player) && InRange(b.log[i].balanceAfter)
  }

  /** The log with one more row. */
  lemma {:induction false} RowAdded(b: Books, id: int, tx: Tx, next: int)
    requires Agree(b) && tx.player == id && tx.balanceAfter == next && InRange(next) && Signed(b.log, id) + tx.amount == next
    ensures Agree(Books(Put(b.accounts, id, next), b.log + [tx]))
  {
    var r := Books(Put(b.accounts, id, next), b.log + [tx]);
    assert r.log[..|b.log|] == b.log;
    forall other ensures Balanced(r, other) {
      LookupPut(b.accounts, id, next, other);
      assert Balanced(b, other);
    }
    forall i | 0 <= i < |r.log| ensures RowOk(r, i) {
      LookupPut(b.accounts, id, next, r.log[i].player);
      if i < |b.log| {
        assert RowOk(b, i) && r.log[..i + 1] == b.log[..i + 1];
      } else {
        assert r.log[..i + 1] == r.log;
      }
    }
  }

  /** Every chip movement keeps balances and log in agreement, or changes nothing. */
  lemma {:induction false} DeltaAgrees(b: Books, id: int, delta: int, kind: TxKind, fault: Fault)
    requires Agree(b)
    ensures Agree(AfterDelta(b, id, delta, kind, fault))
    ensures ResultOf(b, id, delta, fault).Failure? ==> AfterDelta(b, id, delta, kind, fault) == b
  {
    var result := ResultOf(b, id, delta, fault);
    if result.Success? {
      assert Balanced(b, id);
      RunningTotalFits(b, id, |b.log|);
      assert b.log[..|b.log|] == b.log;
      RowAdded(b, id, Tx(id, kind, delta, result.balanceAfter), result.balanceAfter);
    }
  }

  /** Opening an account keeps the agreement if and only if the id's rows, if it has any, sum to
      zero: a second SaveAccount for a funded id breaks it. */
  lemma {:induction false} SaveAgreesIff(b: Books, id: int, chips: int)
    requires Agree(b) && InRange(chips)
    ensures Agree(AfterSave(b, id, chips)) <==> Signed(b.log, id) == 0
  {
    var r := AfterSave(b, id, chips);
    assert r.log[..|b.log|] == b.log;
    if Signed(b.log, id) == 0 {
      RowAdded(b, id, Tx(id, Grant, chips, chips), chips);
    } else {
      LookupPut(b.accounts, id, chips, id);
      assert !Balanced(r, id);
    }
  }

  /** A saved account reads back its chips, in one new row; nobody else's balance or sum has moved. */
  lemma {:induction false} SaveReadsBack(b: Books, id: int, chips: int, other: int)
    requires InOrder(b.accounts)
    ensures var r := AfterSave(b, id, chips);
      && InOrder(r.accounts) && Lookup(r.accounts, id) == Chips(chips)
      && r.log == b.log + [Tx(id, Grant, chips, chips)] && Signed(r.log, id) == Signed(b.log, id) + chips
      && (other != id ==> Lookup(r.accounts, other) == Lookup(b.accounts, other) && Signed(r.log, other) == Signed(b.log, other))
  {
    LookupPut(b.accounts, id, chips, id);
    LookupPut(b.accounts, id, chips, other);
    assert AfterSave(b, id, chips).log[..|b.log|] == b.log;
  }

  lemma {:induction false} ExceptSigned(log: seq<Tx>, id: int, other: int)
    ensures Signed(RowsExcept(log, id), other) == if other == id then 0 else Signed(log, other)
  {
    if log != [] {
      var rest := RowsExcept(log[..|log| - 1], id);
      ExceptSigned(log[..|log| - 1], id, other);
      if log[|log| - 1].player != id {
        assert (rest + [log[|log| - 1]])[..|rest|] == rest;
      } else {
        assert rest + [] == rest;
      }
    }
  }

  /** Row i of the pruned log is some row of the full one, with the same running sum. */
  lemma {:induction false} ExceptRow(log: seq<Tx>, id: int, i: nat) returns (k: nat)
    requires i < |RowsExcept(log, id)|
    ensures k < |log| && log[k] == RowsExcept(log, id)[i] && log[k].player != id
    ensures RowsExcept(log, id)[..i + 1] == RowsExcept(log[..k + 1], id)
  {
    var n := |log| - 1;
    var rest := RowsExcept(log[..n], id);
    if i < |rest| {
      k := ExceptRow(log[..n], id, i);
      assert log[..n][..k + 1] == log[..k + 1];
      assert RowsExcept(log, id)[..i + 1] == rest[..i + 1];
    } else {
      k := n;
      assert log[..n + 1] == log;
    }
  }

  lemma {:induction false} DeleteAgrees(b: Books, id: int)
    requires Agree(b)
    ensures Agree(AfterDelete(b, id))
  {
    var r := AfterDelete(b, id);
    forall other ensures Balanced(r, other) && (Lookup(b.accounts, other).Chips? ==> Lookup(r.accounts, other).Chips?) {
      ExceptSigned(b.log, id, other);
      LookupPut(b.accounts, id, 0, other);
      assert Balanced(b, other);
    }
    forall i | 0 <= i < |r.log| ensures RowOk(r, i) {
      var k := ExceptRow(b.log, id, i);
      assert RowOk(b, k);
      ExceptSigned(b.log[..k + 1], id, b.log[k].player);
    }
  }

  /** Any account's running total, at any point of the log, fits an int64: Reconcile cannot overflow. */
  lemma {:induction false} RunningTotalFits(b: Books, id: int, j: nat)
    requires Agree(b) && j <= |b.log|
    ensures InRange(Signed(b.log[..j], id))
  {
    if j > 0 {
      RunningTotalFits(b, id, j - 1);
      assert b.log[..j][..j - 1] == b.log[..j - 1];
      assert RowOk(b, j - 1);
    }
  }

  // ---------- whole runs ----------

  datatype Op =
    | Save(id: int, chips: int)
    | Move(id: int, delta: int, kind: TxKind, fault: Fault)
    | Delete(id: int)

  function Apply(b: Books, op: Op): (r: Books)
    requires InOrder(b.accounts)
    ensures InOrder(r.accounts)
  {
    match op
    case Save(id, chips) => AfterSave(b, id, chips)
    case Move(id, delta, kind, fault) => AfterDelta(b, id, delta, kind, fault)
    case Delete(id) => AfterDelete(b, id)
  }

  function Run(ops: seq<Op>): (b: Books)
    ensures InOrder(b.accounts)
  {
    if ops == [] then Books([], []) else Apply(Run(ops[..|ops| - 1]), ops[|ops| - 1])
  }

  /** Each account is opened once, with a balance that fits. */
  ghost predicate OpenedOnce(ops: seq<Op>) {
    && (forall i :: 0 <= i < |ops| && ops[i].Save? ==> InRange(ops[i].chips))
    && (forall i, j :: 0 <= i < j < |ops| && ops[i].Save? && ops[j].Save? ==> ops[i].id != ops[j].id)
  }

  ghost predicate Unopened(b: Books, id: int) {
    Lookup(b.accounts, id).NoAccount? && Signed(b.log, id) == 0
  }

  lemma {:induction false} RowOfOther(b: Books, other: int, chips: int, tx: Tx, id: int)
    requires InOrder(b.accounts) && Unopened(b, id) && other != id && tx.player == other
    ensures Unopened(Books(Put(b.accounts, other, chips), b.log + [tx]), id)
  {
    LookupPut(b.accounts, other, chips, id);
    assert (b.log + [tx])[..|b.log|] == b.log;
  }

  /** No operation but opening it makes an account. */
  lemma {:induction false} StaysUnopened(b: Books, op: Op, id: int)
    requires InOrder(b.accounts) && Unopened(b, id) && (op.Save? ==> op.id != id)
    ensures Unopened(Apply(b, op), id)
  {
    match op {
      case Save(other, chips) =>
        RowOfOther(b, other, chips, Tx(other, Grant, chips, chips), id);
      case Move(other, delta, kind, fault) =>
        var result := ResultOf(b, other, delta, fault);
        if result.Success? { RowOfOther(b, other, result.balanceAfter, Tx(other, kind, delta, result.balanceAfter), id); }
      case Delete(other) =>
        ExceptSigned(b.log, other, id);
        LookupPut(b.accounts, other, 0, id);
    }
  }

  /** Accounts and rows only exist for ids that were opened. */
  lemma {:induction false} OnlyOpened(ops: seq<Op>, id: int)
    requires forall i :: 0 <= i < |ops| && ops[i].Save? ==> ops[i].id != id
    ensures Unopened(Run(ops), id)
  {
    if ops != [] {
      OnlyOpened(ops[..|ops| - 1], id);
      StaysUnopened(Run(ops[..|ops| - 1]), ops[|ops| - 1], id);
    }
  }

  /** After any run of openings, movements that succeed or fail, and deletions, every balance is the
      signed sum of its rows and every row records the balance it left. */
  lemma {:induction false} RunAgrees(ops: seq<Op>)
    requires OpenedOnce(ops)
    ensures Agree(Run(ops))
  {
    if ops != [] {
      var n := |ops| - 1;
      var before, op := Run(ops[..n]), ops[n];
      RunAgrees(ops[..n]);
      match op {
        case Save(id, chips) =>
          OnlyOpened(ops[..n], id);
          SaveAgreesIff(before, id, chips);
        case Move(id, delta, kind, fault) => DeltaAgrees(before, id, delta, kind, fault);
        case Delete(id) => DeleteAgrees(before, id);
      }
    }
  }

  // ---------- the ledger object ----------

  datatype ReconcileRow = ReconcileRow(id: int, accountBalance: int, ledgerBalance: int)
  {
    function Discrepancy(): int { accountBalance - ledgerBalance }
  }

  datatype Report = Report(rows: seq<ReconcileRow>, totalDiscrepancy: int, allBalanced: bool, txCount: nat)

  function Rows(accounts: seq<Account>, log: seq<Tx>): (rows: seq<ReconcileRow>)
    ensures |rows| == |accounts|
    ensures forall i :: 0 <= i < |rows| ==> rows[i] == ReconcileRow(accounts[i].id, accounts[i].chips, Signed(log, accounts[i].id))
  {
    seq(|accounts|, i requires 0 <= i < |accounts| =>
      ReconcileRow(accounts[i].id, accounts[i].chips, Signed(log, accounts[i].id)))
  }

  function Abs(x: int): int { if x < 0 then -x else x }

  function TotalDiscrepancy(rows: seq<ReconcileRow>): int {
    if rows == [] then 0 else TotalDiscrepancy(rows[..|rows| - 1]) + Abs(rows[|rows| - 1].Discrepancy())
  }

  class ChipLedger {
    var accounts: seq<Account>
    var log: seq<Tx>

    ghost function Snap(): Books
      reads this
    {
      Books(accounts, log)
    }

    constructor ()
      ensures Snap() == Books([], [])
    {
      accounts, log := [], [];
    }

    method SaveAccount(id: int, chips: int)
      requires InOrder(accounts)
      modifies this
      ensures Snap() == AfterSave(old(Snap()), id, chips)
    {
      accounts := Put(accounts, id, chips);
      log := log + [Tx(id, Grant, chips, chips)];
    }

    method DeleteAccount(id: int)
      requires InOrder(accounts)
      modifies this
      ensures Snap() == AfterDelete(old(Snap()), id)
    {
      if Lookup(accounts, id).Chips? { accounts := Put(accounts, id, 0); }
      DeleteRows(id);
    }

    method DeleteRows(id: int)
      modifies this`log
      ensures log == RowsExcept(old(log), id)
    {
      var kept: seq<Tx> := [];
      var i := 0;
      while i < |log|
        invariant 0 <= i <= |log| && log == old(log) && kept == RowsExcept(log[..i], id)
      {
        assert log[..i + 1][..i] == log[..i];
        if log[i].player != id { kept := kept + [log[i]]; }
        i := i + 1;
      }
      assert log[..i] == log;
      log := kept;
    }

    /** One transaction: any error after the update has been made rolls it back. */
    method ApplyDelta(id: int, delta: int, kind: TxKind, fault: Fault) returns (result: LedgerResult)
      requires InOrder(accounts)
      modifies this
      ensures result == ResultOf(old(Snap()), id, delta, fault) && Snap() == AfterDelta(old(Snap()), id, delta, kind, fault)
    {
      if id <= 0 { return Failure(InvalidPlayerId); }
      if delta == 0 { return Failure(ZeroAmount); }
      var saved := accounts;
      var balance := Lookup(accounts, id);
      if balance.NoAccount? { return Failure(AccountNotFound); }
      var current := balance.amount;
      if (delta > 0 && current > INT64_MAX - delta) || (delta < 0 && current < INT64_MIN - delta) {
        return Failure(Overflow);
      }
      var next := current + delta;
      if next < 0 { return Failure(InsufficientChips); }
      if fault == UpdateLost { return Failure(ConcurrentUpdate); }
      accounts := Put(accounts, id, next);
      if fault == InsertLost {
        accounts := saved;
        return Failure(LedgerInsertFailed);
      }
      log := log + [Tx(id, kind, delta, next)];
      result := Success(next);
    }

    method DebitBuyIn(id: int, amount: int, fault: Fault) returns (result: LedgerResult)
      requires InOrder(accounts)
      modifies this
      ensures if amount <= 0 then result == Failure(InvalidAmount) && Snap() == old(Snap())
              else result == ResultOf(old(Snap()), id, -amount, fault) && Snap() == AfterDelta(old(Snap()), id, -amount, BuyIn, fault)
    {
      if amount <= 0 { return Failure(InvalidAmount); }
      result := ApplyDelta(id, -amount, BuyIn, fault);
    }

    /** CreditCashOut, CreditRefund and CreditBonus, which differ in the kind they record. */
    method Credit(id: int, amount: int, kind: TxKind, fault: Fault) returns (result: LedgerResult)
      requires InOrder(accounts) && kind in {CashOut, Refund, Bonus}
      modifies this
      ensures if amount <= 0 then result == Failure(InvalidAmount) && Snap() == old(Snap())
              else result == ResultOf(old(Snap()), id, amount, fault) && Snap() == AfterDelta(old(Snap()), id, amount, kind, fault)
    {
      if amount <= 0 { return Failure(InvalidAmount); }
      result := ApplyDelta(id, amount, kind, fault);
    }

    method LedgerBalance(id: int) returns (sum: int)
      ensures sum == Signed(log, id)
    {
      sum := 0;
      var i := 0;
      while i < |log|
        invariant 0 <= i <= |log| && sum == Signed(log[..i], id)
      {
        assert log[..i + 1][..i] == log[..i];
        if log[i].player == id { sum := sum + log[i].amount; }
        i := i + 1;
      }
      assert log[..i] == log;
    }

    /** Balanced overall exactly when every account equals the signed sum of its rows. */
    method Reconcile() returns (report: Report)
      ensures report.rows == Rows(accounts, log) && report.txCount == |log|
      ensures report.allBalanced <==> forall i :: 0 <= i < |accounts| ==> accounts[i].chips == Signed(log, accounts[i].id)
      ensures report.totalDiscrepancy == TotalDiscrepancy(report.rows)
    {
      var rows: seq<ReconcileRow>, total, all := [], 0, true;
      ghost var target := Rows(accounts, log);
      var i := 0;
      while i < |accounts|
        invariant 0 <= i <= |accounts| && rows == target[..i] && total == TotalDiscrepancy(rows) && (all <==> AllEven(rows))
      {
        var ledgerBalance := LedgerBalance(accounts[i].id);
        var row := ReconcileRow(accounts[i].id, accounts[i].chips, ledgerBalance);
        if row.Discrepancy() != 0 {
          all := false;
          total := total + Abs(row.Discrepancy());
        }
        RowAppended(rows, row);
        rows := rows + [row];
        i := i + 1;
      }
      assert target[..i] == target;
      report := Report(rows, total, all, |log|);
      BalancedRows(accounts, log);
    }
  }

  ghost predicate AllEven(rows: seq<ReconcileRow>) {
    forall k :: 0 <= k < |rows| ==> rows[k].Discrepancy() == 0
  }

  lemma {:induction false} RowAppended(rows: seq<ReconcileRow>, row: ReconcileRow)
    ensures AllEven(rows + [row]) <==> AllEven(rows) && row.Discrepancy() == 0
    ensures TotalDiscrepancy(rows + [row]) == TotalDiscrepancy(rows) + if row.Discrepancy() != 0 then Abs(row.Discrepancy()) else 0
  {
    var all := rows + [row];
    assert all[..|rows|] == rows && all[|rows|] == row;
    if AllEven(all) {
      forall k | 0 <= k < |rows| ensures rows[k].Discrepancy() == 0 { assert all[k] == rows[k]; }
    }
  }

  /** The total is what the accounts are out by, whichever way: at least every single discrepancy, and
      nothing exactly when all are even. */
  lemma {:induction false} TotalIs(rows: seq<ReconcileRow>)
    ensures TotalDiscrepancy(rows) >= 0 && (TotalDiscrepancy(rows) == 0 <==> AllEven(rows))
    ensures forall k :: 0 <= k < |rows| ==>
      -TotalDiscrepancy(rows) <= rows[k].accountBalance - rows[k].ledgerBalance <= TotalDiscrepancy(rows)
  {
    if rows != [] {
      var n := |rows| - 1;
      TotalIs(rows[..n]);
      RowAppended(rows[..n], rows[n]);
      assert rows == rows[..n] + [rows[n]];
      forall k | 0 <= k < |rows|
        ensures -TotalDiscrepancy(rows) <= rows[k].accountBalance - rows[k].ledgerBalance <= TotalDiscrepancy(rows)
      {
        if k < n { assert rows[k] == rows[..n][k]; }
      }
    }
  }

  lemma {:induction false} BalancedRows(accounts: seq<Account>, log: seq<Tx>)
    ensures AllEven(Rows(accounts, log)) <==>
      forall i :: 0 <= i < |accounts| ==> accounts[i].chips == Signed(log, accounts[i].id)
  {
    var rows := Rows(accounts, log);
    assert forall k :: 0 <= k < |accounts| ==> rows[k].Discrepancy() == accounts[k].chips - Signed(log, accounts[k].id);
  }

  /** On the books of any run, Reconcile finds every account balanced. */
  lemma {:induction false} RunReconciles(ops: seq<Op>)
    requires OpenedOnce(ops)
    ensures var b := Run(ops);
      forall i :: 0 <= i < |b.accounts| ==> b.accounts[i].chips == Signed(b.log, b.accounts[i].id) && InRange(b.accounts[i].chips)
  {
    RunAgrees(ops);
    var b := Run(ops);
    forall i | 0 <= i < |b.accounts|
      ensures b.accounts[i].chips == Signed(b.log, b.accounts[i].id) && InRange(b.accounts[i].chips)
    {
      LookupMember(b.accounts, b.accounts[i].id, b.accounts[i].chips);
      assert Balanced(b, b.accounts[i].id);
      RunningTotalFits(b, b.accounts[i].id, |b.log|);
      assert b.log[..|b.log|] == b.log;
    }
  }
}
