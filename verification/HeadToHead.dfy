/** What the counters of CalculateExact count, in terms of the cards alone. */
module HeadToHead {
  import opened Arithmetic
  import opened Cards
  import opened HandRanking
  import opened BestHands
  import opened Evaluator
  import opened Enumeration
  import opened Equity
  import opened EquityMartingale

  /** With these cards on the board the first hand makes the better best five. */
  ghost predicate Beats(h: Hand, other: Hand, board: set<Card>) {
    exists v, w :: IsBest(h.Set() + board, v) && IsBest(other.Set() + board, w) && v.Value() > w.Value()
  }

  ghost predicate Splits(h: Hand, other: Hand, board: set<Card>) {
    exists v, w :: IsBest(h.Set() + board, v) && IsBest(other.Set() + board, w) && v.Value() == w.Value()
  }

  lemma {:induction false} WorthIs(cards: set<Card>, v: EvalResult)
    requires |cards| >= 5 && IsBest(cards, v)
    ensures Worth(cards) == v.Value()
  {
  }

  /** The verdict on a complete board is the comparison of the two best values. */
  lemma {:induction false} VerdictOf(h1: Hand, h2: Hand, board: set<Card>, a: EvalResult, b: EvalResult)
    requires |h1.Set() + board| >= 5 && |h2.Set() + board| >= 5
    requires IsBest(h1.Set() + board, a) && IsBest(h2.Set() + board, b)
    ensures Rules()(h1, h2, board) == First <==> a.Value() > b.Value()
    ensures Rules()(h1, h2, board) == Second <==> a.Value() < b.Value()
    ensures Rules()(h1, h2, board) == Tie <==> a.Value() == b.Value()
  {
    WorthIs(h1.Set() + board, a);
    WorthIs(h2.Set() + board, b);
  }

  /** What a verdict says about the cards. */
  ghost predicate Says(v: Verdict, h1: Hand, h2: Hand, board: set<Card>) {
    match v
    case First => Beats(h1, h2, board)
    case Second => Beats(h2, h1, board)
    case Tie => Splits(h1, h2, board)
  }

  lemma {:induction false} VerdictSays(h1: Hand, h2: Hand, board: set<Card>, v: Verdict)
    requires |h1.Set() + board| >= 5 && |h2.Set() + board| >= 5
    ensures Rules()(h1, h2, board) == v <==> Says(v, h1, h2, board)
  {
    BestExists(h1.Set() + board);
    BestExists(h2.Set() + board);
    var a :| IsBest(h1.Set() + board, a);
    var b :| IsBest(h2.Set() + board, b);
    VerdictOf(h1, h2, board, a, b);
    OneBest(h1.Set() + board, h2.Set() + board, a, b);
  }

  /** Best values are unique, so any two witnesses say the same. */
  lemma {:induction false} OneBest(x: set<Card>, y: set<Card>, a: EvalResult, b: EvalResult)
    requires IsBest(x, a) && IsBest(y, b)
    ensures forall v, w :: IsBest(x, v) && IsBest(y, w) ==> v == a && w == b
  {
    forall v, w | IsBest(x, v) && IsBest(y, w) ensures v == a && w == b {
      BestIsUnique(x, v, a);
      BestIsUnique(y, w, b);
    }
  }

  /** The cards nobody holds and the board does not show. */
  ghost function Left(h1: Hand, h2: Hand, board: set<Card>): set<Card> {
    set c: Card | c !in board && c != h1.lo && c != h1.hi && c != h2.lo && c != h2.hi
  }

  /** The ways to complete the board of which that is true. */
  ghost function Completions(h1: Hand, h2: Hand, board: set<Card>, need: nat, p: set<Card> -> bool): set<set<Card>> {
    set s: set<Card> | s <= Left(h1, h2, board) && |s| == need && p(board + s)
  }

  ghost function Beating(h: Hand, other: Hand): set<Card> -> bool {
    (full: set<Card>) => Beats(h, other, full)
  }

  ghost function Splitting(h: Hand, other: Hand): set<Card> -> bool {
    (full: set<Card>) => Splits(h, other, full)
  }

  lemma {:induction false} LeftIsAvail(h1: Hand, h2: Hand, board: set<Card>)
    ensures Left(h1, h2, board) == Elements(Avail(board + h1.Set() + h2.Set()))
  {
    AvailHolds(board + h1.Set() + h2.Set());
  }

  lemma {:induction false} FullEnough(h: Hand, board: set<Card>, s: set<Card>, n: nat)
    requires |board| + n == 5 && |s| == n && s !! board
    ensures |h.Set() + (board + s)| >= 5
  {
    DisjointSize(board, s);
    SubsetSize(board + s, h.Set() + (board + s));
  }

  /** On complete boards the verdict is v exactly where p holds. */
  ghost predicate Tells(referee: Referee, h1: Hand, h2: Hand, board: set<Card>, need: nat, v: Verdict, p: set<Card> -> bool) {
    forall s: set<Card> :: s <= Left(h1, h2, board) && |s| == need ==> (referee(h1, h2, board + s) == v <==> p(board + s))
  }

  lemma {:induction false} CountedFor(referee: Referee, h1: Hand, h2: Hand, board: set<Card>, need: nat, v: Verdict, p: set<Card> -> bool)
    requires Tells(referee, h1, h2, board, need, v, p)
    ensures CountPair(referee, h1, h2, board, need).Of(v) == |Completions(h1, h2, board, need, p)|
  {
    AvailHolds(board + h1.Set() + h2.Set());
    CountsAreFamilies(referee, h1, h2, board, Avail(board + h1.Set() + h2.Set()), need, v);
    LeftIsAvail(h1, h2, board);
    assert Winning(referee, h1, h2, board, Left(h1, h2, board), need, v) == Completions(h1, h2, board, need, p);
  }

  lemma {:induction false} RulesTell(h1: Hand, h2: Hand, board: set<Card>, need: nat)
    requires |board| + need == 5
    ensures Tells(Rules(), h1, h2, board, need, First, Beating(h1, h2))
    ensures Tells(Rules(), h1, h2, board, need, Second, Beating(h2, h1))
    ensures Tells(Rules(), h1, h2, board, need, Tie, Splitting(h1, h2))
  {
    forall s: set<Card> | s <= Left(h1, h2, board) && |s| == need
      ensures Rules()(h1, h2, board + s) == First <==> Beating(h1, h2)(board + s)
      ensures Rules()(h1, h2, board + s) == Second <==> Beating(h2, h1)(board + s)
      ensures Rules()(h1, h2, board + s) == Tie <==> Splitting(h1, h2)(board + s)
    {
      FullEnough(h1, board, s, need);
      FullEnough(h2, board, s, need);
      VerdictSays(h1, h2, board + s, First);
      VerdictSays(h1, h2, board + s, Second);
      VerdictSays(h1, h2, board + s, Tie);
    }
  }

  /** The counters of a pair: on how many of the ways to complete the board the one wins, the other
      wins, and they tie. */
  ghost predicate Counted(c: Counts, h1: Hand, h2: Hand, board: set<Card>, need: nat) {
    && c.w1 == |Completions(h1, h2, board, need, Beating(h1, h2))|
    && c.w2 == |Completions(h1, h2, board, need, Beating(h2, h1))|
    && c.ties == |Completions(h1, h2, board, need, Splitting(h1, h2))|
    && c.total == c.w1 + c.w2 + c.ties
  }

  lemma {:induction false} CountedBy(referee: Referee, h1: Hand, h2: Hand, board: set<Card>, need: nat)
    requires Tells(referee, h1, h2, board, need, First, Beating(h1, h2))
    requires Tells(referee, h1, h2, board, need, Second, Beating(h2, h1))
    requires Tells(referee, h1, h2, board, need, Tie, Splitting(h1, h2))
    ensures Counted(CountPair(referee, h1, h2, board, need), h1, h2, board, need)
  {
    CountedFor(referee, h1, h2, board, need, First, Beating(h1, h2));
    CountedFor(referee, h1, h2, board, need, Second, Beating(h2, h1));
    CountedFor(referee, h1, h2, board, need, Tie, Splitting(h1, h2));
  }

  /** The counters of one pair of hands are those numbers. */
  lemma {:induction false} PairCounts(h1: Hand, h2: Hand, board: set<Card>, need: nat)
    requires |board| + need == 5
    ensures Counted(CountPair(Rules(), h1, h2, board, need), h1, h2, board, need)
  {
    RulesTell(h1, h2, board, need);
    CountedBy(Rules(), h1, h2, board, need);
  }

  // ---------- ranges ----------

  /** A counter: it adds up, and starts at 0. */
  ghost predicate AddsUp(f: Counts -> int) {
    f(ZERO) == 0 && forall a: Counts, b: Counts {:trigger a.Plus(b)} :: f(a.Plus(b)) == f(a) + f(b)
  }

  ghost function RowOf(f: Counts -> int, referee: Referee, h1: Hand, h2s: seq<Hand>, board: seq<Card>): nat -> int
    requires |board| <= 5
  {
    (j: nat) => if j < |h2s| then f(Share(referee, h1, h2s[j], board)) else 0
  }

  lemma {:induction false} RowAdds(f: Counts -> int, referee: Referee, h1: Hand, h2s: seq<Hand>, board: seq<Card>)
    requires |board| <= 5 && AddsUp(f)
    ensures f(CountAgainst(referee, h1, h2s, board)) == SumTo(|h2s|, RowOf(f, referee, h1, h2s, board))
  {
    if h2s != [] {
      var n := |h2s| - 1;
      RowAdds(f, referee, h1, h2s[..n], board);
      SumToSame(n, RowOf(f, referee, h1, h2s[..n], board), RowOf(f, referee, h1, h2s, board));
    }
  }

  ghost function RowsOf(f: Counts -> int, referee: Referee, h1s: seq<Hand>, h2s: seq<Hand>, board: seq<Card>): nat -> int
    requires |board| <= 5
  {
    (i: nat) => if i < |h1s| then SumTo(|h2s|, RowOf(f, referee, h1s[i], h2s, board)) else 0
  }

  lemma {:induction false} RangeAdds(f: Counts -> int, referee: Referee, h1s: seq<Hand>, h2s: seq<Hand>, board: seq<Card>)
    requires |board| <= 5 && AddsUp(f)
    ensures f(CountRange(referee, h1s, h2s, board)) == SumTo(|h1s|, RowsOf(f, referee, h1s, h2s, board))
  {
    if h1s != [] {
      var n := |h1s| - 1;
      RangeAdds(f, referee, h1s[..n], h2s, board);
      RowAdds(f, referee, h1s[n], h2s, board);
      SumToSame(n, RowsOf(f, referee, h1s[..n], h2s, board), RowsOf(f, referee, h1s, h2s, board));
    }
  }

  /** What a pair of the ranges adds: nothing if a card is wanted twice, else the ways to complete the
      board with that outcome. */
  ghost function Ways(h1s: seq<Hand>, h2s: seq<Hand>, board: seq<Card>, outcome: (Hand, Hand) -> (set<Card> -> bool)): (nat, nat) -> int
    requires |board| <= 5
  {
    (i: nat, j: nat) =>
      if i < |h1s| && j < |h2s| && Apart(h1s[i], h2s[j], Elements(board))
      then |Completions(h1s[i], h2s[j], Elements(board), 5 - |board|, outcome(h1s[i], h2s[j]))| else 0
  }

  /** f counts that outcome. */
  ghost predicate CountsFor(f: Counts -> int, referee: Referee, h1s: seq<Hand>, h2s: seq<Hand>, board: seq<Card>,
                            outcome: (Hand, Hand) -> (set<Card> -> bool))
    requires |board| <= 5
  {
    forall i, j :: 0 <= i < |h1s| && 0 <= j < |h2s| ==>
      f(Share(referee, h1s[i], h2s[j], board)) == Ways(h1s, h2s, board, outcome)(i, j)
  }

  lemma {:induction false} CounterIs(f: Counts -> int, referee: Referee, h1s: seq<Hand>, h2s: seq<Hand>, board: seq<Card>,
                                     outcome: (Hand, Hand) -> (set<Card> -> bool))
    requires |board| <= 5 && AddsUp(f) && CountsFor(f, referee, h1s, h2s, board, outcome)
    ensures f(CountRange(referee, h1s, h2s, board)) == GridSum(|h1s|, |h2s|, Ways(h1s, h2s, board, outcome))
  {
    RangeAdds(f, referee, h1s, h2s, board);
    var ways := Ways(h1s, h2s, board, outcome);
    forall i: nat | i < |h1s|
      ensures RowsOf(f, referee, h1s, h2s, board)(i) == SumTo(|h2s|, (j: nat) => ways(i, j))
    {
      SumToSame(|h2s|, RowOf(f, referee, h1s[i], h2s, board), (j: nat) => ways(i, j));
    }
    SumToSame(|h1s|, RowsOf(f, referee, h1s, h2s, board), (i: nat) => SumTo(|h2s|, (j: nat) => ways(i, j)));
  }

  ghost function FirstBeats(): (Hand, Hand) -> (set<Card> -> bool) { (a: Hand, b: Hand) => Beating(a, b) }
  ghost function SecondBeats(): (Hand, Hand) -> (set<Card> -> bool) { (a: Hand, b: Hand) => Beating(b, a) }
  ghost function BothSplit(): (Hand, Hand) -> (set<Card> -> bool) { (a: Hand, b: Hand) => Splitting(a, b) }

  ghost predicate Pairs(referee: Referee, h1s: seq<Hand>, h2s: seq<Hand>, board: seq<Card>) {
    && |board| <= 5 && Distinct(board)
    && (forall i :: 0 <= i < |h1s| ==> h1s[i].Proper() && h1s[i].Off(Elements(board)))
    && (forall j :: 0 <= j < |h2s| ==> h2s[j].Proper())
    && forall i, j :: 0 <= i < |h1s| && 0 <= j < |h2s| ==>
         Counted(CountPair(referee, h1s[i], h2s[j], Elements(board), 5 - |board|), h1s[i], h2s[j], Elements(board), 5 - |board|)
  }

  lemma {:induction false} SharesCount(referee: Referee, h1s: seq<Hand>, h2s: seq<Hand>, board: seq<Card>)
    requires Pairs(referee, h1s, h2s, board)
    ensures CountsFor((c: Counts) => c.w1, referee, h1s, h2s, board, FirstBeats())
    ensures CountsFor((c: Counts) => c.w2, referee, h1s, h2s, board, SecondBeats())
    ensures CountsFor((c: Counts) => c.ties, referee, h1s, h2s, board, BothSplit())
  {
    forall i: nat, j: nat | i < |h1s| && j < |h2s|
      ensures Share(referee, h1s[i], h2s[j], board).w1 == Ways(h1s, h2s, board, FirstBeats())(i, j)
      ensures Share(referee, h1s[i], h2s[j], board).w2 == Ways(h1s, h2s, board, SecondBeats())(i, j)
      ensures Share(referee, h1s[i], h2s[j], board).ties == Ways(h1s, h2s, board, BothSplit())(i, j)
    {
      CompatibleApart(h1s[i], h2s[j], board);
    }
  }

  /** What the counters of a whole calculation are: over every pair of hands that share no card, the ways
      to complete the board on which the first wins, the second wins, and they tie. */
  ghost predicate RangeCounted(c: Counts, h1s: seq<Hand>, h2s: seq<Hand>, board: seq<Card>)
    requires |board| <= 5
  {
    && c.w1 == GridSum(|h1s|, |h2s|, Ways(h1s, h2s, board, FirstBeats()))
    && c.w2 == GridSum(|h1s|, |h2s|, Ways(h1s, h2s, board, SecondBeats()))
    && c.ties == GridSum(|h1s|, |h2s|, Ways(h1s, h2s, board, BothSplit()))
  }

  lemma {:induction false} RangeCountedBy(referee: Referee, h1s: seq<Hand>, h2s: seq<Hand>, board: seq<Card>)
    requires Pairs(referee, h1s, h2s, board)
    ensures RangeCounted(CountRange(referee, h1s, h2s, board), h1s, h2s, board)
  {
    SharesCount(referee, h1s, h2s, board);
    CounterIs((c: Counts) => c.w1, referee, h1s, h2s, board, FirstBeats());
    CounterIs((c: Counts) => c.w2, referee, h1s, h2s, board, SecondBeats());
    CounterIs((c: Counts) => c.ties, referee, h1s, h2s, board, BothSplit());
  }

  lemma {:induction false} RulesPair(h1s: seq<Hand>, h2s: seq<Hand>, board: seq<Card>, need: nat)
    requires |board| <= 5 && Distinct(board) && need == 5 - |board| && |Elements(board)| + need == 5
    requires forall i :: 0 <= i < |h1s| ==> h1s[i].Proper() && h1s[i].Off(Elements(board))
    requires forall j :: 0 <= j < |h2s| ==> h2s[j].Proper()
    ensures Pairs(Rules(), h1s, h2s, board)
  {
    forall i, j | 0 <= i < |h1s| && 0 <= j < |h2s|
      ensures Counted(CountPair(Rules(), h1s[i], h2s[j], Elements(board), need), h1s[i], h2s[j], Elements(board), need)
    {
      PairCounts(h1s[i], h2s[j], Elements(board), need);
    }
  }

  lemma {:induction false} RangeCounts(h1s: seq<Hand>, h2s: seq<Hand>, board: seq<Card>)
    requires |board| <= 5 && Distinct(board)
    requires forall i :: 0 <= i < |h1s| ==> h1s[i].Proper() && h1s[i].Off(Elements(board))
    requires forall j :: 0 <= j < |h2s| ==> h2s[j].Proper()
    ensures RangeCounted(CountRange(Rules(), h1s, h2s, board), h1s, h2s, board)
  {
    DistinctSize(board);
    RulesPair(h1s, h2s, board, 5 - |board|);
    RangeCountedBy(Rules(), h1s, h2s, board);
  }

  // ---------- the equity ----------

  lemma {:induction false} EquityScaled(c: Counts)
    requires c.total > 0
    ensures EquityOf(c) * c.total as real == c.w1 as real + c.ties as real / 2.0
  {
    var w, t, n := c.w1 as real, c.ties as real, c.total as real;
    assert (2.0 * w + t) / (2.0 * n) * n == (2.0 * w + t) / 2.0;
  }

  lemma {:induction false} CountsOfPair(referee: Referee, h1: Hand, h2: Hand, board: seq<Card>, b: set<Card>, need: nat, c: Counts)
    requires |board| <= 5 && Distinct(board) && Apart(h1, h2, b) && b == Elements(board) && need == 5 - |board| && |b| + need == 5
    requires c == CountRange(referee, [h1], [h2], board)
    ensures c == CountPair(referee, h1, h2, b, need) && c.total > 0
  {
    RangeOfPair(referee, h1, h2, board);
    AvailSize(h1, h2, board);
    PairTrials(referee, h1, h2, b, need);
    ChooseZero(48 - |board|, need);
  }

  /** The equity of the first of two hands: of all the ways to complete the board, those on which it wins
      and half of those on which the pot is split. */
  lemma {:induction false} EquityCounts(h1: Hand, h2: Hand, board: seq<Card>, b: set<Card>, need: nat, c: Counts)
    requires |board| <= 5 && Distinct(board) && Apart(h1, h2, b) && b == Elements(board) && need == 5 - |board|
    requires c == CountRange(Rules(), [h1], [h2], board)
    ensures Counted(c, h1, h2, b, need) && c.total > 0
    ensures EquityOf(c) * c.total as real == c.w1 as real + c.ties as real / 2.0
  {
    DistinctSize(board);
    CountsOfPair(Rules(), h1, h2, board, b, need, c);
    PairCounts(h1, h2, b, need);
    EquityScaled(c);
  }
}
