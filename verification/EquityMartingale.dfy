/** Why the arena may subtract runout equity swings (arena/src/match_runner.cpp): the exact counts
    before a card and after each possible next card fit together, so equity is a martingale. */
module EquityMartingale {
  import Arithmetic
  import opened Cards
  import opened Evaluator
  import opened Enumeration
  import opened Equity

  // ---------- the enumeration as a family of sets ----------

  /** The completions on which the verdict is v. */
  ghost function Winning(referee: Referee, h1: Hand, h2: Hand, board: set<Card>, rest: set<Card>, k: nat, v: Verdict): set<set<Card>> {
    set s: set<Card> | s <= rest && |s| == k && referee(h1, h2, board + s) == v
  }

  lemma {:induction false} CompletionShape(avail: seq<Card>, k: nat, i: nat)
    requires Distinct(avail) && i < Choose(|avail|, k)
    ensures Completion(avail, k, i) <= Elements(avail) && |Completion(avail, k, i)| == k
  {
    var dealt := Deal(avail, TupleAt(0, |avail|, k, i));
    DistinctSize(dealt);
  }

  /** Tuples that deal the same cards are the same. */
  lemma {:induction false} DealInjective(avail: seq<Card>, a: seq<int>, b: seq<int>)
    requires Distinct(avail) && IsTuple(a, 0, |avail|) && IsTuple(b, 0, |avail|) && |a| == |b|
    requires Elements(Deal(avail, a)) == Elements(Deal(avail, b))
    ensures a == b
  {
    forall x ensures x in a <==> x in b {
      if x in a { SameIndex(avail, a, b, x); }
      if x in b { SameIndex(avail, b, a, x); }
    }
    IncreasingSame(a, b);
  }

  lemma {:induction false} SameIndex(avail: seq<Card>, a: seq<int>, b: seq<int>, x: int)
    requires Distinct(avail) && IsTuple(a, 0, |avail|) && IsTuple(b, 0, |avail|)
    requires Elements(Deal(avail, a)) <= Elements(Deal(avail, b)) && x in a
    ensures x in b
  {
    var k :| 0 <= k < |a| && a[k] == x;
    assert Deal(avail, a)[k] in Elements(Deal(avail, a));
    var j :| 0 <= j < |b| && Deal(avail, b)[j] == avail[x];
    assert b[j] == x;
  }

  lemma {:induction false} TailMembers(a: seq<int>, x: int)
    requires a != [] && forall i, j :: 0 <= i < j < |a| ==> a[i] < a[j]
    ensures x in a[1..] <==> x in a && x != a[0]
  {
    if x in a && x != a[0] {
      var i :| 0 <= i < |a| && a[i] == x;
      assert a[1..][i - 1] == x;
    }
  }

  /** Increasing sequences with the same members are the same. */
  lemma {:induction false} IncreasingSame(a: seq<int>, b: seq<int>)
    requires forall i, j :: 0 <= i < j < |a| ==> a[i] < a[j]
    requires forall i, j :: 0 <= i < j < |b| ==> b[i] < b[j]
    requires forall x :: x in a <==> x in b
    ensures a == b
  {
    assert b != [] ==> b[0] in b && b[0] in a;
    if a != [] {
      assert a[0] in a && a[0] in b && b != [];
      assert a[0] == b[0];
      forall x ensures x in a[1..] <==> x in b[1..] {
        TailMembers(a, x);
        TailMembers(b, x);
      }
      IncreasingSame(a[1..], b[1..]);
      assert a == [a[0]] + a[1..] && b == [b[0]] + b[1..];
    }
  }

  /** Different places in the enumeration complete the board differently. */
  lemma {:induction false} CompletionInjective(avail: seq<Card>, k: nat, i: nat, j: nat)
    requires Distinct(avail) && i < Choose(|avail|, k) && j < Choose(|avail|, k)
    requires Completion(avail, k, i) == Completion(avail, k, j)
    ensures i == j
  {
    DealInjective(avail, TupleAt(0, |avail|, k, i), TupleAt(0, |avail|, k, j));
    TupleAtInjective(0, |avail|, k, i);
    TupleAtInjective(0, |avail|, k, j);
  }

  /** Every set of that size completes the board at some place in the enumeration. */
  lemma {:induction false} CompletionReaches(avail: seq<Card>, s: set<Card>) returns (i: nat)
    requires Distinct(avail) && s <= Elements(avail)
    ensures i < Choose(|avail|, |s|) && Completion(avail, |s|, i) == s
  {
    var ps := PositionsOf(avail, s);
    i := TupleRank(ps, 0, |avail|);
    assert Deal(avail, ps) == Picks(avail, ps);
  }

  /** The completions with verdict v among the first n. */
  ghost function FirstWith(vs: seq<Verdict>, avail: seq<Card>, k: nat, n: nat, v: Verdict): set<set<Card>>
    requires n <= |vs| == Choose(|avail|, k)
  {
    set i | 0 <= i < n && vs[i] == v :: Completion(avail, k, i)
  }

  lemma {:induction false} FirstWithNext(vs: seq<Verdict>, avail: seq<Card>, k: nat, n: nat, v: Verdict)
    requires Distinct(avail) && n < |vs| == Choose(|avail|, k)
    ensures var before, now, c := FirstWith(vs, avail, k, n, v), FirstWith(vs, avail, k, n + 1, v), Completion(avail, k, n);
      if vs[n] == v then now == before + {c} && c !in before else now == before
  {
    var before, now, c := FirstWith(vs, avail, k, n, v), FirstWith(vs, avail, k, n + 1, v), Completion(avail, k, n);
    forall i | 0 <= i < n ensures Completion(avail, k, i) != c {
      if Completion(avail, k, i) == c { CompletionInjective(avail, k, i, n); }
    }
    forall s ensures s in now <==> s in before || (vs[n] == v && s == c) {
    }
  }

  lemma {:induction false} GrownBy(before: set<set<Card>>, now: set<set<Card>>, c: set<Card>, joins: bool)
    requires if joins then now == before + {c} && c !in before else now == before
    ensures |now| == |before| + if joins then 1 else 0
  {
  }

  lemma {:induction false} FirstWithGrows(vs: seq<Verdict>, avail: seq<Card>, k: nat, n: nat, v: Verdict)
    requires Distinct(avail) && n < |vs| == Choose(|avail|, k)
    ensures |FirstWith(vs, avail, k, n + 1, v)| == |FirstWith(vs, avail, k, n, v)| + if vs[n] == v then 1 else 0
  {
    FirstWithNext(vs, avail, k, n, v);
    GrownBy(FirstWith(vs, avail, k, n, v), FirstWith(vs, avail, k, n + 1, v), Completion(avail, k, n), vs[n] == v);
  }

  lemma {:induction false} CountGrows(vs: seq<Verdict>, n: nat, v: Verdict)
    requires n < |vs|
    ensures CountAll(vs[..n + 1]).Of(v) == CountAll(vs[..n]).Of(v) + if vs[n] == v then 1 else 0
  {
    CountNextVerdict(vs, n);
    AddOf(CountAll(vs[..n]), vs[n], v);
  }

  lemma {:induction false} FirstWithSize(vs: seq<Verdict>, avail: seq<Card>, k: nat, n: nat, v: Verdict)
    requires Distinct(avail) && n <= |vs| == Choose(|avail|, k)
    ensures |FirstWith(vs, avail, k, n, v)| == CountAll(vs[..n]).Of(v)
  {
    if n == 0 {
      assert FirstWith(vs, avail, k, 0, v) == {};
    } else {
      FirstWithSize(vs, avail, k, n - 1, v);
      CountGrows(vs, n - 1, v);
      FirstWithGrows(vs, avail, k, n - 1, v);
    }
  }

  lemma {:induction false} AddOf(c: Counts, x: Verdict, v: Verdict)
    ensures c.Add(x).Of(v) == c.Of(v) + if x == v then 1 else 0
  {
  }

  /** The counts of the enumeration are the sizes of the families. */
  lemma {:induction false} CountsAreFamilies(referee: Referee, h1: Hand, h2: Hand, board: set<Card>, avail: seq<Card>, k: nat, v: Verdict)
    requires Distinct(avail)
    ensures CountAll(Verdicts(referee, h1, h2, board, avail, k)).Of(v) == |Winning(referee, h1, h2, board, Elements(avail), k, v)|
  {
    var vs := Verdicts(referee, h1, h2, board, avail, k);
    FirstWithSize(vs, avail, k, |vs|, v);
    assert vs[..|vs|] == vs;
    var family, counted := Winning(referee, h1, h2, board, Elements(avail), k, v), FirstWith(vs, avail, k, |vs|, v);
    forall s ensures s in family <==> s in counted {
      if s in family {
        var i := CompletionReaches(avail, s);
        assert vs[i] == v;
      }
      if s in counted {
        var i :| 0 <= i < |vs| && vs[i] == v && Completion(avail, k, i) == s;
        CompletionShape(avail, k, i);
      }
    }
    assert family == counted;
  }

  // ---------- double counting ----------

  /** The members of a family that hold a card. */
  ghost function Holding(family: set<set<Card>>, c: Card): set<set<Card>> {
    set s | s in family && c in s
  }

  ghost function SumHolding(family: set<set<Card>>, cards: seq<Card>): nat {
    if cards == [] then 0 else SumHolding(family, cards[..|cards| - 1]) + |Holding(family, cards[|cards| - 1])|
  }

  ghost function HeldBy(s: set<Card>, cards: seq<Card>): nat {
    if cards == [] then 0 else HeldBy(s, cards[..|cards| - 1]) + if cards[|cards| - 1] in s then 1 else 0
  }

  lemma {:induction false} HeldBySize(s: set<Card>, cards: seq<Card>)
    requires Distinct(cards) && s <= Elements(cards)
    ensures HeldBy(s, cards) == |s|
  {
    if cards == [] {
      assert s == {};
    } else {
      var n := |cards| - 1;
      HeldByRest(s, cards[..n], cards[n]);
      HeldBySize(s - {cards[n]}, cards[..n]);
    }
  }

  lemma {:induction false} HeldByRest(s: set<Card>, cards: seq<Card>, c: Card)
    requires c !in cards
    ensures HeldBy(s, cards) == HeldBy(s - {c}, cards)
  {
    if cards != [] { HeldByRest(s, cards[..|cards| - 1], c); }
  }

  /** Taking one set out of the family. */
  lemma {:induction false} SumHoldingRemove(family: set<set<Card>>, s: set<Card>, cards: seq<Card>)
    requires s in family
    ensures SumHolding(family, cards) == SumHolding(family - {s}, cards) + HeldBy(s, cards)
  {
    if cards != [] {
      var n := |cards| - 1;
      SumHoldingRemove(family, s, cards[..n]);
      var c := cards[n];
      if c in s {
        assert Holding(family, c) == Holding(family - {s}, c) + {s};
      } else {
        assert Holding(family, c) == Holding(family - {s}, c);
      }
    }
  }

  /** Counting card by card counts each k-card set k times. */
  lemma {:induction false} DoubleCount(family: set<set<Card>>, cards: seq<Card>, k: nat)
    requires Distinct(cards) && forall s :: s in family ==> s <= Elements(cards) && |s| == k
    ensures SumHolding(family, cards) == k * |family|
    decreases |family|
  {
    if family == {} {
      NothingHeld(cards);
    } else {
      var s :| s in family;
      DoubleCount(family - {s}, cards, k);
      SumHoldingRemove(family, s, cards);
      HeldBySize(s, cards);
      OneMore(k, |family - {s}|, |family|);
    }
  }

  lemma {:induction false} OneMore(k: nat, n: nat, m: nat)
    requires m == n + 1
    ensures k * m == k * n + k
  {
  }

  lemma {:induction false} NothingHeld(cards: seq<Card>)
    ensures SumHolding({}, cards) == 0
  {
    if cards != [] {
      NothingHeld(cards[..|cards| - 1]);
      assert Holding({}, cards[|cards| - 1]) == {};
    }
  }

  // ---------- one more card on the board ----------

  ghost function Without(family: set<set<Card>>, c: Card): set<set<Card>> {
    set s | s in family :: s - {c}
  }

  lemma {:induction false} WithoutSize(family: set<set<Card>>, c: Card)
    requires forall s :: s in family ==> c in s
    ensures |Without(family, c)| == |family|
    decreases |family|
  {
    if family == {} {
      assert Without(family, c) == {};
    } else {
      var s :| s in family;
      WithoutSize(family - {s}, c);
      assert Without(family, c) == Without(family - {s}, c) + {s - {c}};
      forall t | t in family - {s} ensures t - {c} != s - {c} {
        assert (t - {c}) + {c} == t && (s - {c}) + {c} == s;
      }
    }
  }

  /** The completions after card c are the completions before it that use c. */
  lemma {:induction false} NextCard(referee: Referee, h1: Hand, h2: Hand, board: set<Card>, rest: set<Card>, k: nat, v: Verdict, c: Card)
    requires c in rest && k > 0
    ensures |Winning(referee, h1, h2, board + {c}, rest - {c}, k - 1, v)|
         == |Holding(Winning(referee, h1, h2, board, rest, k, v), c)|
  {
    var after := Winning(referee, h1, h2, board + {c}, rest - {c}, k - 1, v);
    var using := Holding(Winning(referee, h1, h2, board, rest, k, v), c);
    forall s | s in after ensures s in Without(using, c) {
      AfterUses(referee, h1, h2, board, rest, k, v, c, s);
      WithoutMember(using, s, c);
    }
    forall t | t in using ensures t - {c} in after {
      UsingGoesOn(referee, h1, h2, board, rest, k, v, c, t);
    }
    assert after == Without(using, c);
    WithoutSize(using, c);
  }

  lemma {:induction false} WithoutMember(family: set<set<Card>>, s: set<Card>, c: Card)
    requires c !in s && s + {c} in family
    ensures s in Without(family, c)
  {
    assert s + {c} - {c} == s;
  }

  lemma {:induction false} AfterUses(referee: Referee, h1: Hand, h2: Hand, board: set<Card>, rest: set<Card>, k: nat, v: Verdict, c: Card, s: set<Card>)
    requires c in rest && k > 0 && s in Winning(referee, h1, h2, board + {c}, rest - {c}, k - 1, v)
    ensures c !in s && s + {c} in Holding(Winning(referee, h1, h2, board, rest, k, v), c)
  {
    AddCard(board, s, c);
  }

  lemma {:induction false} UsingGoesOn(referee: Referee, h1: Hand, h2: Hand, board: set<Card>, rest: set<Card>, k: nat, v: Verdict, c: Card, t: set<Card>)
    requires c in rest && k > 0 && t in Holding(Winning(referee, h1, h2, board, rest, k, v), c)
    ensures t - {c} in Winning(referee, h1, h2, board + {c}, rest - {c}, k - 1, v)
  {
    AddCard(board, t - {c}, c);
    assert t - {c} + {c} == t;
  }

  lemma {:induction false} AddCard(board: set<Card>, s: set<Card>, c: Card)
    requires c !in s
    ensures board + {c} + s == board + (s + {c}) && s + {c} - {c} == s && |s + {c}| == |s| + 1
  {
  }

  /** The counts summed over the possible next cards. */
  ghost function SumNext(referee: Referee, h1: Hand, h2: Hand, board: set<Card>, rest: set<Card>, k: nat, v: Verdict, cards: seq<Card>): nat
    requires k > 0
  {
    if cards == [] then 0
    else
      var c := cards[|cards| - 1];
      SumNext(referee, h1, h2, board, rest, k, v, cards[..|cards| - 1])
      + |Winning(referee, h1, h2, board + {c}, rest - {c}, k - 1, v)|
  }

  lemma {:induction false} SumNextHolds(referee: Referee, h1: Hand, h2: Hand, board: set<Card>, rest: set<Card>, k: nat, v: Verdict, cards: seq<Card>)
    requires k > 0 && forall i :: 0 <= i < |cards| ==> cards[i] in rest
    ensures SumNext(referee, h1, h2, board, rest, k, v, cards) == SumHolding(Winning(referee, h1, h2, board, rest, k, v), cards)
  {
    if cards != [] {
      var n := |cards| - 1;
      SumNextHolds(referee, h1, h2, board, rest, k, v, cards[..n]);
      NextCard(referee, h1, h2, board, rest, k, v, cards[n]);
    }
  }

  // ---------- the martingale ----------

  ghost function InUse(h1: Hand, h2: Hand, board: set<Card>): set<Card> {
    board + h1.Set() + h2.Set()
  }

  /** CountPair, as the size of a family over the cards not in use. */
  lemma {:induction false} PairIsFamily(referee: Referee, h1: Hand, h2: Hand, board: set<Card>, k: nat, v: Verdict)
    ensures CountPair(referee, h1, h2, board, k).Of(v)
         == |Winning(referee, h1, h2, board, Elements(Avail(InUse(h1, h2, board))), k, v)|
  {
    AvailHolds(InUse(h1, h2, board));
    CountsAreFamilies(referee, h1, h2, board, Avail(InUse(h1, h2, board)), k, v);
  }

  lemma {:induction false} RestAfter(h1: Hand, h2: Hand, board: set<Card>, c: Card)
    requires c in Avail(InUse(h1, h2, board))
    ensures Elements(Avail(InUse(h1, h2, board + {c}))) == Elements(Avail(InUse(h1, h2, board))) - {c}
  {
    AvailHolds(InUse(h1, h2, board));
    AvailHolds(InUse(h1, h2, board + {c}));
  }

  /** What the exact counts say of verdict v after each of the next cards, summed. */
  ghost function SumAfter(referee: Referee, h1: Hand, h2: Hand, board: set<Card>, k: nat, v: Verdict, cards: seq<Card>): nat
    requires k > 0
  {
    if cards == [] then 0
    else
      SumAfter(referee, h1, h2, board, k, v, cards[..|cards| - 1])
      + CountPair(referee, h1, h2, board + {cards[|cards| - 1]}, k - 1).Of(v)
  }

  lemma {:induction false} SumAfterIsNext(referee: Referee, h1: Hand, h2: Hand, board: set<Card>, rest: set<Card>, k: nat, v: Verdict, cards: seq<Card>)
    requires k > 0 && forall i :: 0 <= i < |cards| ==> Follows(referee, h1, h2, board, rest, k, v, cards[i])
    ensures SumAfter(referee, h1, h2, board, k, v, cards) == SumNext(referee, h1, h2, board, rest, k, v, cards)
  {
    if cards != [] {
      var n := |cards| - 1;
      SumAfterIsNext(referee, h1, h2, board, rest, k, v, cards[..n]);
      assert Follows(referee, h1, h2, board, rest, k, v, cards[n]);
    }
  }

  /** The counts after card c are those of the completions of the rest. */
  ghost predicate Follows(referee: Referee, h1: Hand, h2: Hand, board: set<Card>, rest: set<Card>, k: nat, v: Verdict, c: Card)
    requires k > 0
  {
    CountPair(referee, h1, h2, board + {c}, k - 1).Of(v) == |Winning(referee, h1, h2, board + {c}, rest - {c}, k - 1, v)|
  }

  /** Summed over every card that may come next, the counts of each verdict are the current counts
      times the number of cards still to come. */
  lemma {:induction false} CountsMartingale(referee: Referee, h1: Hand, h2: Hand, board: set<Card>, k: nat, v: Verdict)
    requires k > 0
    ensures SumAfter(referee, h1, h2, board, k, v, Avail(InUse(h1, h2, board)))
         == k * CountPair(referee, h1, h2, board, k).Of(v)
  {
    AvailHolds(InUse(h1, h2, board));
    SumAfterAll(referee, h1, h2, board, k, v);
    FamilyMartingale(referee, h1, h2, board, Avail(InUse(h1, h2, board)), k, v);
    PairIsFamily(referee, h1, h2, board, k, v);
  }

  lemma {:induction false} SumAfterAll(referee: Referee, h1: Hand, h2: Hand, board: set<Card>, k: nat, v: Verdict)
    requires k > 0
    ensures var avail := Avail(InUse(h1, h2, board));
      SumAfter(referee, h1, h2, board, k, v, avail) == SumNext(referee, h1, h2, board, Elements(avail), k, v, avail)
  {
    var avail := Avail(InUse(h1, h2, board));
    var rest := Elements(avail);
    forall i | 0 <= i < |avail| ensures Follows(referee, h1, h2, board, rest, k, v, avail[i]) {
      CardFollows(referee, h1, h2, board, rest, k, v, avail[i]);
    }
    SumAfterIsNext(referee, h1, h2, board, rest, k, v, avail);
  }

  lemma {:induction false} CardFollows(referee: Referee, h1: Hand, h2: Hand, board: set<Card>, rest: set<Card>, k: nat, v: Verdict, c: Card)
    requires k > 0 && c in Avail(InUse(h1, h2, board)) && rest == Elements(Avail(InUse(h1, h2, board)))
    ensures Follows(referee, h1, h2, board, rest, k, v, c)
  {
    RestAfter(h1, h2, board, c);
    PairIsFamily(referee, h1, h2, board + {c}, k - 1, v);
    assert Elements(Avail(InUse(h1, h2, board + {c}))) == rest - {c};
  }

  lemma {:induction false} FamilyMartingale(referee: Referee, h1: Hand, h2: Hand, board: set<Card>, avail: seq<Card>, k: nat, v: Verdict)
    requires k > 0 && Distinct(avail)
    ensures SumNext(referee, h1, h2, board, Elements(avail), k, v, avail)
         == k * |Winning(referee, h1, h2, board, Elements(avail), k, v)|
  {
    assert forall i :: 0 <= i < |avail| ==> avail[i] in Elements(avail);
    SumNextHolds(referee, h1, h2, board, Elements(avail), k, v, avail);
    DoubleCount(Winning(referee, h1, h2, board, Elements(avail), k, v), avail, k);
  }

  /** equity[0]: wins and half the ties, out of all trials. */
  function EquityOf(c: Counts): real
    requires c.total > 0
  {
    (2.0 * c.w1 as real + c.ties as real) / (2.0 * c.total as real)
  }

  /** Pascal's absorption: n times C(n - 1, k - 1) is k times C(n, k). */
  lemma {:induction false} Absorption(n: nat, k: nat)
    requires 0 < k <= n
    ensures n * Choose(n - 1, k - 1) == k * Choose(n, k)
  {
    if n == 1 {
      assert Choose(0, 0) == 1 && Choose(1, 1) == Choose(0, 1) + Choose(0, 0) && Choose(0, 1) == 0;
    } else if k == n {
      ChooseZero(n - 1, n);
      Absorption(n - 1, k - 1);
      ChooseSelf(n);
      ChooseSelf(n - 1);
    } else if k == 1 {
      ChooseNothing(n - 1);
      Absorption(n - 1, 1);
      ChooseNothing(n - 2);
    } else {
      Absorption(n - 1, k);
      Absorption(n - 1, k - 1);
      AbsorptionStep(n, k, Choose(n - 2, k - 1), Choose(n - 2, k - 2), Choose(n - 1, k), Choose(n - 1, k - 1));
    }
  }

  lemma {:induction false} ChooseSelf(n: nat)
    ensures Choose(n, n) == 1
  {
    if n > 0 {
      ChooseSelf(n - 1);
      ChooseZero(n - 1, n);
    }
  }

  lemma {:induction false} AbsorptionStep(n: nat, k: nat, a: nat, b: nat, p: nat, q: nat)
    requires k >= 1 && n >= 1 && q == a + b && (n - 1) * a == k * p && (n - 1) * b == (k - 1) * q
    ensures n * q == k * (p + q)
  {
    assert (n - 1) * q == (n - 1) * a + (n - 1) * b;
    assert n * q == (n - 1) * q + q;
    assert k * (p + q) == k * p + k * q;
    assert (k - 1) * q == k * q - q;
  }

  lemma {:induction false} Crossed(sum: nat, n: nat, k: nat, w: nat, t: nat, t1: nat)
    requires sum == k * w && n * t1 == k * t
    ensures sum * t == n * t1 * w
  {
    assert sum * t == k * w * t == (k * t) * w;
  }

  lemma {:induction false} Averaged(sum: nat, n: nat, w: nat, t: nat, t1: nat)
    requires t > 0 && t1 > 0 && sum * t == n * t1 * w
    ensures sum as real / (2.0 * t1 as real) == n as real * (w as real / (2.0 * t as real))
  {
    var s, d, d1 := sum as real, 2.0 * t as real, 2.0 * t1 as real;
    assert s * d == (n as real * w as real) * d1;
    SameRatio(s, d1, n as real * w as real, d);
    assert n as real * (w as real / d) == (n as real * w as real) / d;
  }

  lemma {:induction false} SameRatio(a: real, b: real, c: real, d: real)
    requires b > 0.0 && d > 0.0 && a * d == c * b
    ensures a / b == c / d
  {
    assert a == (a / b) * b && c == (c / d) * d;
    assert (a / b) * (b * d) == (c / d) * (b * d);
  }

  /** Equities after each next card, over t1 trials each, sum to n times the equity now. */
  ghost predicate AveragesTo(now: Counts, wins: nat, ties: nat, n: nat, t1: nat)
    requires now.total > 0 && t1 > 0
  {
    (2 * wins + ties) as real / (2.0 * t1 as real) == n as real * EquityOf(now)
  }

  lemma {:induction false} CountsAverage(now: Counts, wins: nat, ties: nat, n: nat, k: nat, t1: nat)
    requires now.total > 0 && t1 > 0 && wins == k * now.w1 && ties == k * now.ties && n * t1 == k * now.total
    ensures AveragesTo(now, wins, ties, n, t1)
  {
    assert 2 * wins + ties == k * (2 * now.w1 + now.ties);
    Crossed(2 * wins + ties, n, k, 2 * now.w1 + now.ties, now.total, t1);
    Averaged(2 * wins + ties, n, 2 * now.w1 + now.ties, now.total, t1);
  }

  /** How many trials there are now, and after each next card. */
  lemma {:induction false} TrialCounts(referee: Referee, h1: Hand, h2: Hand, board: seq<Card>)
    requires Distinct(board) && |board| < 5 && Apart(h1, h2, Elements(board))
    ensures |Avail(InUse(h1, h2, Elements(board)))| == 48 - |board|
    ensures CountPair(referee, h1, h2, Elements(board), 5 - |board|).total == Choose(48 - |board|, 5 - |board|) > 0
    ensures Choose(47 - |board|, 4 - |board|) > 0
  {
    AvailSize(h1, h2, board);
    PairTrials(referee, h1, h2, Elements(board), 5 - |board|);
    ChooseZero(48 - |board|, 5 - |board|);
    ChooseZero(47 - |board|, 4 - |board|);
  }

  /** The equities after each of the 48 - b cards that may come on a board of b cards, all over the
      same number of trials, sum to 48 - b times the equity now. */
  ghost predicate Averages(now: Counts, wins: nat, ties: nat, b: nat)
    requires b < 5
  {
    now.total > 0 && Choose(47 - b, 4 - b) > 0 && AveragesTo(now, wins, ties, 48 - b, Choose(47 - b, 4 - b))
  }

  /** Before the last card is out, the equity after the next card averages to the equity now: over
      the 48 - b cards that may come on a board of b cards, all with the same number of trials,
      equities sum to 48 - b times the present one. */
  lemma {:induction false} EquityIsMartingale(referee: Referee, h1: Hand, h2: Hand, board: seq<Card>)
    requires Distinct(board) && |board| < 5 && Apart(h1, h2, Elements(board))
    ensures var k, cards := 5 - |board|, Elements(board);
      var now, avail := CountPair(referee, h1, h2, cards, k), Avail(InUse(h1, h2, cards));
      && |avail| == 48 - |board|
      && Averages(now, SumAfter(referee, h1, h2, cards, k, First, avail), SumAfter(referee, h1, h2, cards, k, Tie, avail), |board|)
  {
    var k, cards := 5 - |board|, Elements(board);
    TrialCounts(referee, h1, h2, board);
    AverageNow(referee, h1, h2, cards, k, |board|, CountPair(referee, h1, h2, cards, k), Avail(InUse(h1, h2, cards)));
  }

  lemma {:induction false} AverageNow(referee: Referee, h1: Hand, h2: Hand, cards: set<Card>, k: nat, b: nat, now: Counts, avail: seq<Card>)
    requires k + b == 5 && k > 0 && now == CountPair(referee, h1, h2, cards, k) && avail == Avail(InUse(h1, h2, cards))
    requires now.total == Choose(48 - b, k) > 0 && Choose(47 - b, 4 - b) > 0
    ensures Averages(now, SumAfter(referee, h1, h2, cards, k, First, avail), SumAfter(referee, h1, h2, cards, k, Tie, avail), b)
  {
    CountsMartingale(referee, h1, h2, cards, k, First);
    CountsMartingale(referee, h1, h2, cards, k, Tie);
    Absorption(48 - b, k);
    CountsAverage(now, SumAfter(referee, h1, h2, cards, k, First, avail), SumAfter(referee, h1, h2, cards, k, Tie, avail),
                  48 - b, k, Choose(47 - b, 4 - b));
  }

  /** And after each next card there are equally many trials. */
  lemma {:induction false} TrialsAfter(referee: Referee, h1: Hand, h2: Hand, board: seq<Card>, c: Card)
    requires Distinct(board) && |board| < 5 && Apart(h1, h2, Elements(board)) && c in Avail(InUse(h1, h2, Elements(board)))
    ensures CountPair(referee, h1, h2, Elements(board) + {c}, 4 - |board|).total == Choose(47 - |board|, 4 - |board|)
  {
    AvailSize(h1, h2, board);
    RestSize(h1, h2, Elements(board), c);
    PairTrials(referee, h1, h2, Elements(board) + {c}, 4 - |board|);
  }

  lemma {:induction false} RestSize(h1: Hand, h2: Hand, board: set<Card>, c: Card)
    requires c in Avail(InUse(h1, h2, board))
    ensures |Avail(InUse(h1, h2, board + {c}))| == |Avail(InUse(h1, h2, board))| - 1
  {
    RestAfter(h1, h2, board, c);
    AvailHolds(InUse(h1, h2, board));
    AvailHolds(InUse(h1, h2, board + {c}));
    DistinctSize(Avail(InUse(h1, h2, board)));
    DistinctSize(Avail(InUse(h1, h2, board + {c})));
  }

  /** And from the other side: (n - k) times C(n, k) is n times C(n - 1, k). */
  lemma {:induction false} AbsorptionDown(n: nat, k: nat)
    requires k < n
    ensures (n - k) * Choose(n, k) == n * Choose(n - 1, k)
  {
    if k == 0 {
      ChooseNothing(n);
      ChooseNothing(n - 1);
    } else {
      Absorption(n, k);
      var a, b := Choose(n - 1, k), Choose(n - 1, k - 1);
      assert Choose(n, k) == a + b && n * (a + b) == n * a + n * b;
    }
  }

  lemma {:induction false} ExactQuotient(x: int, k: nat, q: int)
    requires k > 0 && x == k * q
    ensures x / k == q
  {
    Arithmetic.ModUnique(x, k, q, 0);
  }

  /** The next binomial coefficient from the one before. */
  lemma {:induction false} NextCoefficient(m: nat, k: nat)
    requires 0 < k <= m
    ensures Choose(m, k - 1) * (m - (k - 1)) / k == Choose(m, k)
  {
    AbsorptionDown(m, k - 1);
    Absorption(m, k);
    ExactQuotient(Choose(m, k - 1) * (m - (k - 1)), k, Choose(m, k));
  }

  /** The work estimate of the enumeration: the ways to pick from one card less than the board leaves. */
  lemma {:induction false} CombosCount(available: int, k: nat)
    requires k < available
    ensures Combos(available, k) == Choose(available - 1, k)
  {
    if k == 0 {
      ChooseNothing(available - 1);
    } else {
      CombosCount(available, k - 1);
      NextCoefficient(available - 1, k);
    }
  }

  // ---------- what CalculateExact returns ----------

  /** One hand against one: the counts over the ranges are those of the pair. */
  lemma {:induction false} RangeOfPair(referee: Referee, h1: Hand, h2: Hand, board: seq<Card>)
    requires |board| <= 5 && Apart(h1, h2, Elements(board))
    ensures CountRange(referee, [h1], [h2], board) == CountPair(referee, h1, h2, Elements(board), 5 - |board|)
  {
    assert Compatible(h1, h2, board);
    var share := Share(referee, h1, h2, board);
    assert [h1][..0] == [] && [h2][..0] == [];
    PlusAssociates(share, share, share);
    assert CountAgainst(referee, h1, [h2], board) == share;
  }

  /** The exact counts for two hands once the cards have come in turn, summed. */
  ghost function SumCounted(referee: Referee, h1: Hand, h2: Hand, board: seq<Card>, v: Verdict, cards: seq<Card>): nat
    requires |board| < 5
  {
    if cards == [] then 0
    else
      SumCounted(referee, h1, h2, board, v, cards[..|cards| - 1])
      + CountRange(referee, [h1], [h2], board + [cards[|cards| - 1]]).Of(v)
  }

  lemma {:induction false} ApartAfter(h1: Hand, h2: Hand, board: set<Card>, c: Card)
    requires Apart(h1, h2, board) && c in Avail(InUse(h1, h2, board))
    ensures Apart(h1, h2, board + {c})
  {
    AvailHolds(InUse(h1, h2, board));
  }

  lemma {:induction false} CardAdded(board: seq<Card>, c: Card)
    ensures Elements(board + [c]) == Elements(board) + {c}
  {
  }

  lemma {:induction false} CountedAfter(referee: Referee, h1: Hand, h2: Hand, board: seq<Card>, c: Card)
    requires |board| < 5 && Apart(h1, h2, Elements(board)) && c in Avail(InUse(h1, h2, Elements(board)))
    ensures CountRange(referee, [h1], [h2], board + [c]) == CountPair(referee, h1, h2, Elements(board) + {c}, 4 - |board|)
  {
    ApartAfter(h1, h2, Elements(board), c);
    CardAdded(board, c);
    RangeOfPair(referee, h1, h2, board + [c]);
  }

  lemma {:induction false} SumsAgree(referee: Referee, h1: Hand, h2: Hand, board: seq<Card>, v: Verdict, cards: seq<Card>)
    requires |board| < 5 && Apart(h1, h2, Elements(board))
    requires forall i :: 0 <= i < |cards| ==> cards[i] in Avail(InUse(h1, h2, Elements(board)))
    ensures SumCounted(referee, h1, h2, board, v, cards) == SumAfter(referee, h1, h2, Elements(board), 5 - |board|, v, cards)
  {
    if cards != [] {
      SumsAgree(referee, h1, h2, board, v, cards[..|cards| - 1]);
      CountedAfter(referee, h1, h2, board, cards[|cards| - 1]);
    }
  }

  /** The same of the counts over the ranges of two hands. */
  lemma {:induction false} CountedAverages(referee: Referee, h1: Hand, h2: Hand, board: seq<Card>)
    requires Distinct(board) && |board| < 5 && Apart(h1, h2, Elements(board))
    ensures var now, avail := CountRange(referee, [h1], [h2], board), Avail(InUse(h1, h2, Elements(board)));
      && |avail| == 48 - |board|
      && Averages(now, SumCounted(referee, h1, h2, board, First, avail), SumCounted(referee, h1, h2, board, Tie, avail), |board|)
    ensures forall c :: c in Avail(InUse(h1, h2, Elements(board))) ==>
      CountRange(referee, [h1], [h2], board + [c]).total == Choose(47 - |board|, 4 - |board|)
  {
    var avail := Avail(InUse(h1, h2, Elements(board)));
    RangeOfPair(referee, h1, h2, board);
    EquityIsMartingale(referee, h1, h2, board);
    SumsAgree(referee, h1, h2, board, First, avail);
    SumsAgree(referee, h1, h2, board, Tie, avail);
    forall c | c in avail ensures CountRange(referee, [h1], [h2], board + [c]).total == Choose(47 - |board|, 4 - |board|) {
      CountedAfter(referee, h1, h2, board, c);
      TrialsAfter(referee, h1, h2, board, c);
    }
  }

  /** What CalculateExact returns for two hands: its equities after the next card, over every card that
      may come, average to its equity now. */
  lemma {:induction false} CalculatedEquityIsMartingale(h1: Hand, h2: Hand, board: seq<Card>)
    requires Distinct(board) && |board| < 5 && Apart(h1, h2, Elements(board))
    ensures var now, avail := CountRange(Rules(), [h1], [h2], board), Avail(InUse(h1, h2, Elements(board)));
      && |avail| == 48 - |board|
      && Averages(now, SumCounted(Rules(), h1, h2, board, First, avail), SumCounted(Rules(), h1, h2, board, Tie, avail), |board|)
    ensures forall c :: c in Avail(InUse(h1, h2, Elements(board))) ==>
      CountRange(Rules(), [h1], [h2], board + [c]).total == Choose(47 - |board|, 4 - |board|)
  {
    CountedAverages(Rules(), h1, h2, board);
  }
}
