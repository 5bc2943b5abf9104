/** Exact heads-up equity (equity/src/equity_calculator.cpp): the in-place enumeration of board
    completions and the counts it makes. Ranges are given as lists of hands; the Monte Carlo paths
    are not part of this model. */
module Equity {
  import opened Cards
  import opened HandRanking
  import opened BestHands
  import opened Evaluator
  import opened Enumeration

  /** A pair of hole cards, as HandId::Decode returns it. */
  datatype Hand = Hand(lo: Card, hi: Card)
  {
    function Set(): set<Card> { {lo, hi} }
    predicate Proper() { lo != hi }
    /** Neither card is among these. */
    predicate Off(cards: set<Card>) { lo !in cards && hi !in cards }
  }

  datatype Verdict = First | Second | Tie

  function Compare(a: int, b: int): Verdict {
    if a > b then First else if b > a then Second else Tie
  }

  /** Who wins on a complete board: it depends on the cards, not on their order. */
  ghost function Decide(h1: Hand, h2: Hand, board: set<Card>): Verdict {
    Compare(Worth(h1.Set() + board), Worth(h2.Set() + board))
  }

  ghost function Worth(cards: set<Card>): int {
    if |cards| >= 5 then Strength(cards) else 0
  }

  ghost predicate Apart(h1: Hand, h2: Hand, board: set<Card>) {
    && h1.Proper() && h2.Proper() && h1.Off(board) && h2.Off(board)
    && h1.lo != h2.lo && h1.lo != h2.hi && h1.hi != h2.lo && h1.hi != h2.hi
  }

  lemma {:induction false} SevenCards(h: Hand, board: seq<Card>)
    requires h.Proper() && |board| == 5 && Distinct(board) && h.Off(Elements(board))
    ensures Distinct([h.lo, h.hi] + board) && Elements([h.lo, h.hi] + board) == h.Set() + Elements(board)
    ensures |h.Set() + Elements(board)| == 7
  {
    var all := [h.lo, h.hi] + board;
    forall i, j | 0 <= i < j < |all| ensures all[i] != all[j] {
      if i < 2 && j >= 2 { assert board[j - 2] in Elements(board); }
    }
    forall c ensures c in all <==> c in h.Set() + Elements(board) {
      if c in board {
        var k :| 0 <= k < |board| && board[k] == c;
        assert all[k + 2] == c;
      }
      if c in h.Set() { assert all[0] == c || all[1] == c; }
    }
    DistinctSize(all);
  }

  method Evaluate7Cards(h1: Hand, h2: Hand, board: seq<Card>) returns (v: Verdict)
    requires |board| == 5 && Distinct(board) && Apart(h1, h2, Elements(board))
    ensures v == Decide(h1, h2, Elements(board))
  {
    SevenCards(h1, board);
    SevenCards(h2, board);
    var r1 := Evaluate7([h1.lo, h1.hi] + board);
    var r2 := Evaluate7([h2.lo, h2.hi] + board);
    v := Compare(r1.Value(), r2.Value());
  }

  // ---------- the counts ----------

  datatype Counts = Counts(w1: nat, w2: nat, ties: nat, total: nat)
  {
    function Add(v: Verdict): Counts {
      match v
      case First => Counts(w1 + 1, w2, ties, total + 1)
      case Second => Counts(w1, w2 + 1, ties, total + 1)
      case Tie => Counts(w1, w2, ties + 1, total + 1)
    }

    function Plus(c: Counts): Counts {
      Counts(w1 + c.w1, w2 + c.w2, ties + c.ties, total + c.total)
    }

    function Of(v: Verdict): nat {
      match v
      case First => w1
      case Second => w2
      case Tie => ties
    }
  }

  const ZERO: Counts := Counts(0, 0, 0, 0)

  /** The cards from c on that are not in use, in order. */
  function AvailFrom(used: set<Card>, c: nat): seq<Card>
    requires c <= 52
    decreases 52 - c, used
  {
    if c == 52 then [] else (if c in used then [] else [c]) + AvailFrom(used, c + 1)
  }

  function Avail(used: set<Card>): seq<Card> {
    AvailFrom(used, 0)
  }

  lemma {:induction false} AvailFromHolds(used: set<Card>, c: nat)
    requires c <= 52
    ensures Distinct(AvailFrom(used, c)) && forall x: Card :: x in AvailFrom(used, c) <==> x >= c && x !in used
    decreases 52 - c, used
  {
    if c < 52 { AvailFromHolds(used, c + 1); }
  }

  /** Every card not in use, once each. */
  lemma {:induction false} AvailHolds(used: set<Card>)
    ensures Distinct(Avail(used)) && forall x: Card :: x in Avail(used) <==> x !in used
  {
    AvailFromHolds(used, 0);
  }

  /** The cards at the indices of a tuple. */
  function Deal(avail: seq<Card>, t: seq<int>): (cards: seq<Card>)
    requires IsTuple(t, 0, |avail|)
    ensures |cards| == |t| && forall k :: 0 <= k < |t| ==> cards[k] == avail[t[k]]
  {
    seq(|t|, k requires 0 <= k < |t| => avail[t[k]])
  }

  /** How often each verdict occurs. */
  function CountAll(verdicts: seq<Verdict>): (c: Counts)
    ensures c.total == |verdicts| == c.w1 + c.w2 + c.ties
  {
    if verdicts == [] then ZERO else CountAll(verdicts[..|verdicts| - 1]).Add(verdicts[|verdicts| - 1])
  }

  /** The i-th completion of the board. */
  ghost function Completion(avail: seq<Card>, need: nat, i: nat): (cards: set<Card>)
    requires i < Choose(|avail|, need)
  {
    Elements(Deal(avail, TupleAt(0, |avail|, need, i)))
  }

  /** Who wins between two hands on a complete board. */
  type Referee = (Hand, Hand, set<Card>) -> Verdict

  /** The referee of the game: the better seven cards win. */
  ghost function Rules(): Referee {
    (h1: Hand, h2: Hand, board: set<Card>) => Decide(h1, h2, board)
  }

  /** A referee that follows the rules. The trigger keeps hand values out of sight until a board is
      judged. */
  ghost predicate Faithful(referee: Referee) {
    forall h1, h2, board: set<Card> {:trigger Decide(h1, h2, board)} :: referee(h1, h2, board) == Decide(h1, h2, board)
  }

  lemma {:induction false} RulesAreFaithful()
    ensures Faithful(Rules())
  {
  }

  /** The verdicts on each completion of the board, in the order of the enumeration. */
  ghost function Verdicts(referee: Referee, h1: Hand, h2: Hand, board: set<Card>, avail: seq<Card>, need: nat): (vs: seq<Verdict>)
    ensures |vs| == Choose(|avail|, need)
    ensures forall i :: 0 <= i < |vs| ==> vs[i] == referee(h1, h2, board + Completion(avail, need, i))
  {
    seq(Choose(|avail|, need), i requires 0 <= i < Choose(|avail|, need) =>
      referee(h1, h2, board + Completion(avail, need, i)))
  }

  /** The counts of one pair of hands: every completion, each once. */
  ghost function CountPair(referee: Referee, h1: Hand, h2: Hand, board: set<Card>, need: nat): Counts {
    CountAll(Verdicts(referee, h1, h2, board, Avail(board + h1.Set() + h2.Set()), need))
  }

  // ---------- the next-combination step ----------

  /** The rightmost index not at its ceiling, or -1. */
  method FindPosition(idx: array<int>, na: int) returns (pos: int)
    requires IsTuple(idx[..], 0, na)
    ensures -1 <= pos < idx.Length
    ensures forall i :: pos < i < idx.Length ==> idx[i] == na - idx.Length + i
    ensures pos >= 0 ==> idx[pos] != na - idx.Length + pos
  {
    var need := idx.Length;
    pos := need - 1;
    while pos >= 0 && idx[pos] == na - need + pos
      invariant -1 <= pos < need && forall i :: pos < i < need ==> idx[i] == na - need + i
    {
      pos := pos - 1;
    }
  }

  /** In an increasing tuple an index can only be below its ceiling. */
  lemma {:induction false} BelowCeiling(t: seq<int>, na: int, i: nat)
    requires IsTuple(t, 0, na) && i < |t|
    ensures t[i] <= na - |t| + i
    decreases |t| - i
  {
    if i + 1 < |t| { BelowCeiling(t, na, i + 1); }
  }

  /** Step to the next increasing tuple, or report that this one is the last. */
  method NextCombination(idx: array<int>, na: int) returns (more: bool)
    requires IsTuple(idx[..], 0, na)
    modifies idx
    ensures more ==> IsNextTuple(old(idx[..]), idx[..], na)
    ensures !more ==> IsLastTuple(old(idx[..]), na) && idx[..] == old(idx[..])
  {
    var need := idx.Length;
    ghost var t := idx[..];
    var pos := FindPosition(idx, na);
    if pos < 0 {
      assert t == Run(na - |t|, |t|);
      return false;
    }
    BelowCeiling(t, na, pos);
    ghost var pre, v, s := t[..pos], t[pos], need - 1 - pos;
    assert t == pre + [v] + Run(na - s, s);
    idx[pos] := idx[pos] + 1;
    var i := pos + 1;
    while i < need
      invariant pos + 1 <= i <= need && idx[..pos] == pre
      invariant forall k :: pos <= k < i ==> idx[k] == v + 1 + (k - pos)
    {
      idx[i] := idx[i - 1] + 1;
      i := i + 1;
    }
    assert idx[..] == pre + Run(v + 1, s + 1);
    assert NextTupleWith(t, idx[..], na, pre, v, s);
    more := true;
  }

  // ---------- one pair of hands ----------

  /** used[] marks exactly these cards, once each. */
  ghost predicate Marks(used: array<nat>, cards: set<Card>)
    reads used
  {
    used.Length == 52 && forall c: Card :: used[c] == if c in cards then 1 else 0
  }

  method CollectAvail(used: array<nat>, ghost cards: set<Card>) returns (avail: seq<Card>)
    requires Marks(used, cards)
    ensures avail == Avail(cards)
  {
    avail := [];
    var c := 0;
    while c < 52
      invariant 0 <= c <= 52 && avail + AvailFrom(cards, c) == Avail(cards)
    {
      AvailNext(avail, cards, c);
      if used[c] == 0 { avail := avail + [c]; }
      c := c + 1;
    }
  }

  lemma {:induction false} AvailNext(avail: seq<Card>, cards: set<Card>, c: nat)
    requires c < 52
    ensures avail + AvailFrom(cards, c) == (if c in cards then avail else avail + [c]) + AvailFrom(cards, c + 1)
  {
  }

  /** The cards a tuple deals are new to the board and to both hands. */
  lemma {:induction false} DealtNew(avail: seq<Card>, used: set<Card>, t: seq<int>, board: seq<Card>)
    requires avail == Avail(used) && IsTuple(t, 0, |avail|) && Distinct(board) && Elements(board) <= used
    ensures Distinct(board + Deal(avail, t)) && Elements(board + Deal(avail, t)) == Elements(board) + Elements(Deal(avail, t))
    ensures Elements(Deal(avail, t)) !! used
  {
    AvailHolds(used);
    var dealt := Deal(avail, t);
    forall k | 0 <= k < |dealt| ensures dealt[k] !in used {
      assert dealt[k] in avail;
    }
    var all := board + dealt;
    forall i, j | 0 <= i < j < |all| ensures all[i] != all[j] {
      if i < |board| <= j {
        assert board[i] in Elements(board) && dealt[j - |board|] !in used;
      }
    }
  }

  /** board_out: the tuple's cards behind the board. */
  method CompleteBoard(board: seq<Card>, avail: seq<Card>, idx: array<int>) returns (boardOut: seq<Card>)
    requires IsTuple(idx[..], 0, |avail|)
    ensures boardOut == board + Deal(avail, idx[..])
  {
    boardOut := board;
    var k := 0;
    ghost var dealt := Deal(avail, idx[..]);
    while k < idx.Length
      invariant 0 <= k <= idx.Length && boardOut == board + dealt[..k]
    {
      assert idx[..][k] == idx[k];
      boardOut := boardOut + [avail[idx[k]]];
      k := k + 1;
    }
    assert dealt[..k] == dealt;
  }

  method JudgeBoard(h1: Hand, h2: Hand, board: seq<Card>, avail: seq<Card>, idx: array<int>, ghost referee: Referee)
    returns (v: Verdict)
    requires Distinct(board) && |board| + idx.Length == 5 && Apart(h1, h2, Elements(board)) && Faithful(referee)
    requires avail == Avail(Elements(board) + h1.Set() + h2.Set()) && IsTuple(idx[..], 0, |avail|)
    ensures v == referee(h1, h2, Elements(board) + Elements(Deal(avail, idx[..])))
  {
    var boardOut := CompleteBoard(board, avail, idx);
    DealtNew(avail, Elements(board) + h1.Set() + h2.Set(), idx[..], board);
    v := Evaluate7Cards(h1, h2, boardOut);
  }

  /** The tuple after the i-th is the next one, until the last. */
  lemma {:induction false} Steps(na: nat, need: nat, i: nat, more: bool, t: seq<int>)
    requires i < Choose(na, need)
    requires if more then IsNextTuple(TupleAt(0, na, need, i), t, na) else IsLastTuple(TupleAt(0, na, need, i), na)
    ensures if more then i + 1 < Choose(na, need) && t == TupleAt(0, na, need, i + 1) else i + 1 == Choose(na, need)
  {
    TupleWalks(0, na, need, i);
    var here := TupleAt(0, na, need, i);
    if i + 1 < Choose(na, need) {
      NextTupleUnique(here, TupleAt(0, na, need, i + 1), t, na);
    } else if more {
      NextTupleUnique(here, t, t, na);
    }
  }

  /** A pair of hands apart from each other and from the board, and the cards left for the board. */
  ghost predicate Setup(h1: Hand, h2: Hand, board: seq<Card>, avail: seq<Card>, need: nat, referee: Referee) {
    && Distinct(board) && |board| + need == 5 && Apart(h1, h2, Elements(board)) && Faithful(referee)
    && avail == Avail(Elements(board) + h1.Set() + h2.Set())
  }

  /** The enumeration loop: every completion of the board is judged exactly once. */
  method EnumerateBoards(h1: Hand, h2: Hand, board: seq<Card>, avail: seq<Card>, need: nat, ghost referee: Referee)
    returns (counts: Counts)
    requires Setup(h1, h2, board, avail, need, referee) && need <= |avail|
    ensures counts == CountAll(Verdicts(referee, h1, h2, Elements(board), avail, need))
  {
    ghost var verdicts := Verdicts(referee, h1, h2, Elements(board), avail, need);
    var idx := FirstIndices(need, |avail|);
    counts := ZERO;
    ghost var i := 0;
    var more := true;
    while more
      invariant 0 <= i <= |verdicts| && counts == CountAll(verdicts[..i])
      invariant if more then i < |verdicts| && idx[..] == TupleAt(0, |avail|, need, i) else i == |verdicts|
      invariant fresh(idx)
      decreases |verdicts| - i
    {
      CountNextVerdict(verdicts, i);
      var v: Verdict;
      v, more := OneBoard(h1, h2, board, avail, need, idx, i, referee);
      counts := counts.Add(v);
      i := i + 1;
    }
    assert verdicts[..i] == verdicts;
  }

  lemma {:induction false} CountNextVerdict(verdicts: seq<Verdict>, i: nat)
    requires i < |verdicts|
    ensures CountAll(verdicts[..i + 1]) == CountAll(verdicts[..i]).Add(verdicts[i])
  {
    assert verdicts[..i + 1][..i] == verdicts[..i];
  }

  method FirstIndices(need: nat, na: nat) returns (idx: array<int>)
    requires need <= na
    ensures fresh(idx) && Choose(na, need) > 0 && idx[..] == TupleAt(0, na, need, 0)
  {
    idx := new int[need](i => i);
    FirstTuple(0, na, need);
    assert idx[..] == Run(0, need);
  }

  /** Judge the i-th completion and step to the next. */
  method OneBoard(h1: Hand, h2: Hand, board: seq<Card>, avail: seq<Card>, need: nat, idx: array<int>, ghost i: nat, ghost referee: Referee)
    returns (v: Verdict, more: bool)
    requires Setup(h1, h2, board, avail, need, referee)
    requires i < Choose(|avail|, need) && idx[..] == TupleAt(0, |avail|, need, i)
    modifies idx
    ensures v == referee(h1, h2, Elements(board) + Completion(avail, need, i))
    ensures if more then i + 1 < Choose(|avail|, need) && idx[..] == TupleAt(0, |avail|, need, i + 1)
            else i + 1 == Choose(|avail|, need)
  {
    v := JudgeBoard(h1, h2, board, avail, idx, referee);
    more := NextCombination(idx, |avail|);
    Steps(|avail|, need, i, more, idx[..]);
  }

  // ---------- two ranges ----------

  predicate Compatible(h1: Hand, h2: Hand, board: seq<Card>) {
    h2.lo !in board && h2.hi !in board && h2.lo !in h1.Set() && h2.hi !in h1.Set()
  }

  /** What a hand adds to the counts of its row. */
  ghost function Share(referee: Referee, h1: Hand, h2: Hand, board: seq<Card>): Counts
    requires |board| <= 5
  {
    if Compatible(h1, h2, board) then CountPair(referee, h1, h2, Elements(board), 5 - |board|) else ZERO
  }

  ghost function CountAgainst(referee: Referee, h1: Hand, h2s: seq<Hand>, board: seq<Card>): Counts
    requires |board| <= 5
  {
    if h2s == [] then ZERO
    else
      var last := h2s[|h2s| - 1];
      CountAgainst(referee, h1, h2s[..|h2s| - 1], board).Plus(Share(referee, h1, last, board))
  }

  /** The counts over every compatible pair of hands. */
  ghost function CountRange(referee: Referee, h1s: seq<Hand>, h2s: seq<Hand>, board: seq<Card>): Counts
    requires |board| <= 5
  {
    if h1s == [] then ZERO
    else CountRange(referee, h1s[..|h1s| - 1], h2s, board).Plus(CountAgainst(referee, h1s[|h1s| - 1], h2s, board))
  }

  lemma {:induction false} PlusAssociates(a: Counts, b: Counts, c: Counts)
    ensures a.Plus(b).Plus(c) == a.Plus(b.Plus(c)) && a.Plus(ZERO) == a == ZERO.Plus(a)
  {
  }

  method MarkHand(used: array<nat>, h: Hand, ghost cards: set<Card>)
    requires Marks(used, cards) && h.Proper() && h.Off(cards)
    modifies used
    ensures Marks(used, cards + h.Set())
  {
    used[h.lo] := used[h.lo] + 1;
    used[h.hi] := used[h.hi] + 1;
  }

  method UnmarkHand(used: array<nat>, h: Hand, ghost cards: set<Card>)
    requires Marks(used, cards + h.Set()) && h.Proper() && h.Off(cards)
    modifies used
    ensures Marks(used, cards)
  {
    used[h.lo] := used[h.lo] - 1;
    used[h.hi] := used[h.hi] - 1;
  }

  /** On a complete board there is one completion: nothing. */
  lemma {:induction false} CompleteCounts(referee: Referee, h1: Hand, h2: Hand, board: set<Card>, avail: seq<Card>)
    ensures CountAll(Verdicts(referee, h1, h2, board, avail, 0)) == ZERO.Add(referee(h1, h2, board))
  {
    ChooseNothing(|avail|);
    var vs := Verdicts(referee, h1, h2, board, avail, 0);
    assert Completion(avail, 0, 0) == {};
    assert board + {} == board;
    assert vs[..0] == [];
  }

  ghost function Below(n: nat): (cards: set<Card>)
    requires n <= 52
    ensures |cards| == n && forall c: Card :: c in cards <==> c < n
  {
    if n == 0 then {} else Below(n - 1) + {n - 1}
  }

  /** As many cards are left as the deck has beyond the board and the two hands. */
  lemma {:induction false} AvailSize(h1: Hand, h2: Hand, board: seq<Card>)
    requires Distinct(board) && |board| <= 5 && Apart(h1, h2, Elements(board))
    ensures |Avail(Elements(board) + h1.Set() + h2.Set())| == 48 - |board|
  {
    UsedSize(h1, h2, board);
    AvailCount(Elements(board) + h1.Set() + h2.Set());
  }

  lemma {:induction false} AvailCount(used: set<Card>)
    ensures |Avail(used)| == 52 - |used|
  {
    AvailHolds(used);
    DistinctSize(Avail(used));
    assert Elements(Avail(used)) == Below(52) - used;
    SplitSize(Below(52), used);
  }

  lemma {:induction false} UsedSize(h1: Hand, h2: Hand, board: seq<Card>)
    requires Distinct(board) && Apart(h1, h2, Elements(board))
    ensures |Elements(board) + h1.Set() + h2.Set()| == |board| + 4
  {
    DistinctSize(board);
    DisjointSize(Elements(board), h1.Set());
    DisjointSize(Elements(board) + h1.Set(), h2.Set());
    assert |h1.Set()| == 2 && |h2.Set()| == 2;
  }

  lemma {:induction false} DisjointSize(a: set<Card>, b: set<Card>)
    requires a !! b
    ensures |a + b| == |a| + |b|
  {
  }

  /** One compatible pair, its cards marked: every completion of the board judged once. */
  method CountOne(h1: Hand, h2: Hand, board: seq<Card>, used: array<nat>, ghost referee: Referee) returns (counts: Counts)
    requires Distinct(board) && |board| <= 5 && Apart(h1, h2, Elements(board)) && Faithful(referee)
    requires Marks(used, Elements(board) + h1.Set() + h2.Set())
    ensures counts == CountAll(Verdicts(referee, h1, h2, Elements(board), Avail(Elements(board) + h1.Set() + h2.Set()), 5 - |board|))
  {
    if |board| == 5 {
      CompleteCounts(referee, h1, h2, Elements(board), Avail(Elements(board) + h1.Set() + h2.Set()));
      counts := CountComplete(h1, h2, board, referee);
    } else {
      counts := CountRunouts(h1, h2, board, used, referee);
    }
  }

  method CountComplete(h1: Hand, h2: Hand, board: seq<Card>, ghost referee: Referee) returns (counts: Counts)
    requires |board| == 5 && Distinct(board) && Apart(h1, h2, Elements(board)) && Faithful(referee)
    ensures counts == ZERO.Add(referee(h1, h2, Elements(board)))
  {
    var v := Evaluate7Cards(h1, h2, board);
    counts := ZERO.Add(v);
  }

  method CountRunouts(h1: Hand, h2: Hand, board: seq<Card>, used: array<nat>, ghost referee: Referee) returns (counts: Counts)
    requires Distinct(board) && |board| < 5 && Apart(h1, h2, Elements(board)) && Faithful(referee)
    requires Marks(used, Elements(board) + h1.Set() + h2.Set())
    ensures counts == CountAll(Verdicts(referee, h1, h2, Elements(board), Avail(Elements(board) + h1.Set() + h2.Set()), 5 - |board|))
  {
    AvailSize(h1, h2, board);
    var avail := CollectAvail(used, Elements(board) + h1.Set() + h2.Set());
    counts := EnumerateBoards(h1, h2, board, avail, 5 - |board|, referee);
  }

  // ---------- CalculateExact ----------

  lemma {:induction false} CompatibleApart(h1: Hand, h2: Hand, board: seq<Card>)
    requires h1.Proper() && h2.Proper() && h1.Off(Elements(board))
    ensures Compatible(h1, h2, board) <==> Apart(h1, h2, Elements(board))
  {
    assert h2.lo in h2.Set() && h2.hi in h2.Set();
  }

  /** All hands of the second range against one of the first. */
  method CountOneAgainst(h1: Hand, h2s: seq<Hand>, board: seq<Card>, used: array<nat>, ghost referee: Referee) returns (counts: Counts)
    requires Distinct(board) && |board| <= 5 && h1.Proper() && h1.Off(Elements(board))
    requires forall k :: 0 <= k < |h2s| ==> h2s[k].Proper()
    requires Marks(used, Elements(board) + h1.Set()) && Faithful(referee)
    modifies used
    ensures counts == CountAgainst(referee, h1, h2s, board) && Marks(used, Elements(board) + h1.Set())
  {
    ghost var marked := Elements(board) + h1.Set();
    counts := ZERO;
    var k := 0;
    while k < |h2s|
      invariant 0 <= k <= |h2s| && Marks(used, marked) && counts == CountAgainst(referee, h1, h2s[..k], board)
    {
      assert h2s[..k + 1][..k] == h2s[..k];
      var pair := TryHand(h1, h2s[k], board, used, referee);
      counts := counts.Plus(pair);
      k := k + 1;
    }
    assert h2s[..k] == h2s;
  }

  /** Skip a hand that shares a card with the board or the other hand; count any other. */
  method TryHand(h1: Hand, h2: Hand, board: seq<Card>, used: array<nat>, ghost referee: Referee) returns (counts: Counts)
    requires Distinct(board) && |board| <= 5 && h1.Proper() && h2.Proper() && h1.Off(Elements(board))
    requires Marks(used, Elements(board) + h1.Set()) && Faithful(referee)
    modifies used
    ensures Marks(used, Elements(board) + h1.Set())
    ensures counts == Share(referee, h1, h2, board)
  {
    ghost var marked := Elements(board) + h1.Set();
    CompatibleApart(h1, h2, board);
    counts := ZERO;
    if used[h2.lo] == 0 && used[h2.hi] == 0 {
      MarkHand(used, h2, marked);
      counts := CountOne(h1, h2, board, used, referee);
      UnmarkHand(used, h2, marked);
    }
  }

  method MarkBoard(board: seq<Card>) returns (used: array<nat>)
    ensures fresh(used) && Marks(used, Elements(board))
  {
    used := new nat[52](_ => 0);
    var i := 0;
    while i < |board|
      invariant 0 <= i <= |board| && Marks(used, Elements(board[..i])) && fresh(used)
    {
      assert Elements(board[..i + 1]) == Elements(board[..i]) + {board[i]};
      used[board[i]] := 1;
      i := i + 1;
    }
    assert board[..i] == board;
  }

  /** The work estimate: C(51 - board size, need), built up term by term. */
  function Combos(available: int, k: nat): int {
    if k == 0 then 1 else Combos(available, k - 1) * (available - 1 - (k - 1)) / k
  }

  const WORK_LIMIT := 200_000_000

  /** Exact counts, or what the source leaves to sampling. */
  datatype EquityResult = Exact(counts: Counts) | Sampled

  method CalculateExact(h1s: seq<Hand>, h2s: seq<Hand>, fullBoard: seq<Card>, samples: int) returns (r: EquityResult)
    requires Distinct(fullBoard)
    requires forall k :: 0 <= k < |h1s| ==> h1s[k].Proper() && h1s[k].Off(Elements(fullBoard))
    requires forall k :: 0 <= k < |h2s| ==> h2s[k].Proper()
    ensures var board := if |fullBoard| > 5 then fullBoard[..5] else fullBoard;
      r == if samples > 0 || Combos(52 - |board|, 5 - |board|) * |h1s| * |h2s| >= WORK_LIMIT then Sampled
           else Exact(CountRange(Rules(), h1s, h2s, board))
  {
    if samples > 0 { return Sampled; }
    var board := if |fullBoard| > 5 then fullBoard[..5] else fullBoard;
    var combos, k := 1, 0;
    while k < 5 - |board|
      invariant 0 <= k <= 5 - |board| && combos == Combos(52 - |board|, k)
    {
      combos := combos * (52 - |board| - 1 - k) / (k + 1);
      k := k + 1;
    }
    if combos * |h1s| * |h2s| >= WORK_LIMIT { return Sampled; }
    RulesAreFaithful();
    var counts := CountRanges(h1s, h2s, board, Rules());
    r := Exact(counts);
  }

  /** The outer loops; used[] is as it was after each hand. */
  method CountRanges(h1s: seq<Hand>, h2s: seq<Hand>, board: seq<Card>, ghost referee: Referee) returns (counts: Counts)
    requires Distinct(board) && |board| <= 5 && Faithful(referee)
    requires forall k :: 0 <= k < |h1s| ==> h1s[k].Proper() && h1s[k].Off(Elements(board))
    requires forall k :: 0 <= k < |h2s| ==> h2s[k].Proper()
    ensures counts == CountRange(referee, h1s, h2s, board)
  {
    var used := MarkBoard(board);
    counts := ZERO;
    var k := 0;
    while k < |h1s|
      invariant 0 <= k <= |h1s| && Marks(used, Elements(board)) && fresh(used)
      invariant counts == CountRange(referee, h1s[..k], h2s, board)
    {
      assert h1s[..k + 1][..k] == h1s[..k];
      MarkHand(used, h1s[k], Elements(board));
      var row := CountOneAgainst(h1s[k], h2s, board, used, referee);
      counts := counts.Plus(row);
      UnmarkHand(used, h1s[k], Elements(board));
      k := k + 1;
    }
    assert h1s[..k] == h1s;
  }

  // ---------- what the totals are ----------

  ghost function CompatibleCount(h1: Hand, h2s: seq<Hand>, board: seq<Card>): nat {
    if h2s == [] then 0
    else CompatibleCount(h1, h2s[..|h2s| - 1], board) + if Compatible(h1, h2s[|h2s| - 1], board) then 1 else 0
  }

  ghost function CompatiblePairs(h1s: seq<Hand>, h2s: seq<Hand>, board: seq<Card>): nat {
    if h1s == [] then 0
    else CompatiblePairs(h1s[..|h1s| - 1], h2s, board) + CompatibleCount(h1s[|h1s| - 1], h2s, board)
  }

  lemma {:induction false} PairTrials(referee: Referee, h1: Hand, h2: Hand, board: set<Card>, need: nat)
    ensures CountPair(referee, h1, h2, board, need).total == Choose(|Avail(board + h1.Set() + h2.Set())|, need)
  {
  }

  lemma {:induction false} ShareTotal(referee: Referee, h1: Hand, h2: Hand, board: seq<Card>)
    requires Distinct(board) && |board| <= 5 && h1.Proper() && h2.Proper() && h1.Off(Elements(board))
    ensures Totals(Share(referee, h1, h2, board), if Compatible(h1, h2, board) then 1 else 0, Choose(48 - |board|, 5 - |board|))
  {
    CompatibleApart(h1, h2, board);
    if Compatible(h1, h2, board) {
      PairTrials(referee, h1, h2, Elements(board), 5 - |board|);
      AvailSize(h1, h2, board);
    }
  }

  lemma {:induction false} RowTotal(referee: Referee, h1: Hand, h2s: seq<Hand>, board: seq<Card>)
    requires Distinct(board) && |board| <= 5 && h1.Proper() && h1.Off(Elements(board))
    requires forall k :: 0 <= k < |h2s| ==> h2s[k].Proper()
    ensures Totals(CountAgainst(referee, h1, h2s, board), CompatibleCount(h1, h2s, board), Choose(48 - |board|, 5 - |board|))
  {
    if h2s != [] {
      var n := |h2s| - 1;
      RowTotal(referee, h1, h2s[..n], board);
      ShareTotal(referee, h1, h2s[n], board);
      Accumulates(CountAgainst(referee, h1, h2s[..n], board), CountAgainst(referee, h1, h2s, board), CompatibleCount(h1, h2s[..n], board),
                  Share(referee, h1, h2s[n], board), if Compatible(h1, h2s[n], board) then 1 else 0, Choose(48 - |board|, 5 - |board|));
    }
  }

  ghost predicate Totals(c: Counts, pairs: nat, ways: nat) {
    c.total == c.w1 + c.w2 + c.ties == pairs * ways
  }

  lemma {:induction false} Accumulates(a: Counts, sum: Counts, x: nat, b: Counts, y: nat, ways: nat)
    requires Totals(a, x, ways) && Totals(b, y, ways) && sum == a.Plus(b)
    ensures Totals(sum, x + y, ways)
  {
    assert (x + y) * ways == x * ways + y * ways;
  }

  /** Wins, losses and ties add up to the trials, and there are C(48 - b, 5 - b) of them for each
      compatible pair of hands on a board of b cards. */
  lemma {:induction false} RangeTotal(referee: Referee, h1s: seq<Hand>, h2s: seq<Hand>, board: seq<Card>)
    requires Distinct(board) && |board| <= 5
    requires forall k :: 0 <= k < |h1s| ==> h1s[k].Proper() && h1s[k].Off(Elements(board))
    requires forall k :: 0 <= k < |h2s| ==> h2s[k].Proper()
    ensures Totals(CountRange(referee, h1s, h2s, board), CompatiblePairs(h1s, h2s, board), Choose(48 - |board|, 5 - |board|))
  {
    if h1s != [] {
      var n := |h1s| - 1;
      RangeTotal(referee, h1s[..n], h2s, board);
      RowTotal(referee, h1s[n], h2s, board);
      Accumulates(CountRange(referee, h1s[..n], h2s, board), CountRange(referee, h1s, h2s, board), CompatiblePairs(h1s[..n], h2s, board),
                  CountAgainst(referee, h1s[n], h2s, board), CompatibleCount(h1s[n], h2s, board), Choose(48 - |board|, 5 - |board|));
    }
  }
}
