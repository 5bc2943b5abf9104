/** Side pots: phase12/src/pot_manager.cpp. */
module PotManager {
  import opened Seats
  import P = PlayerState

  datatype Contrib = Contrib(id: int, invested: Chips, folded: bool)

  datatype Pot = Pot(amount: Chips, eligible: seq<int>)

  // ---------- specification ----------

  predicate SortedByInvested(cs: seq<Contrib>) {
    forall i, j :: 0 <= i < j < |cs| ==> cs[i].invested <= cs[j].invested
  }

  /** The ids of the contributors that have not folded, in order. */
  function LiveIds(cs: seq<Contrib>): seq<int> {
    if cs == [] then [] else (if cs[0].folded then [] else [cs[0].id]) + LiveIds(cs[1..])
  }

  datatype Peeled = Peeled(pots: seq<Pot>, dead: Chips)

  /** Peel the sorted contributors cs, whose stakes below `prev` are already in earlier pots. */
  function Peel(cs: seq<Contrib>, prev: Chips, dead: Chips): Peeled {
    if cs == [] then Peeled([], dead)
    else
      var level := cs[0].invested;
      if level <= prev then Peel(cs[1..], prev, dead)
      else
        var layer := (level - prev) * |cs|;
        if LiveIds(cs) == [] then Peel(cs[1..], level, dead + layer)
        else
          var rest := Peel(cs[1..], level, 0);
          Peeled([Pot(layer + dead, LiveIds(cs))] + rest.pots, rest.dead)
  }

  /** Trailing dead money goes to the last pot, if there is one. */
  function AttachDead(p: Peeled): seq<Pot> {
    if p.dead > 0 && p.pots != [] then
      var last := |p.pots| - 1;
      p.pots[last := Pot(p.pots[last].amount + p.dead, p.pots[last].eligible)]
    else p.pots
  }

  /** The pots built from contributors already in stake order. */
  function PotsFrom(cs: seq<Contrib>): seq<Pot> {
    AttachDead(Peel(cs, 0, 0))
  }

  function TotalOf(pots: seq<Pot>): Chips {
    if pots == [] then 0 else pots[0].amount + TotalOf(pots[1..])
  }

  function Staked(cs: seq<Contrib>): Chips {
    if cs == [] then 0 else cs[0].invested + Staked(cs[1..])
  }

  // ---------- the chip-by-chip rule ----------

  function Min(a: int, b: int): int { if a < b then a else b }

  /** A player with x chips in can match at most x of everybody's chips. */
  function Matched(cs: seq<Contrib>, x: Chips): Chips {
    if cs == [] then 0 else Min(cs[0].invested, x) + Matched(cs[1..], x)
  }

  /** What the pots hold for one player. */
  function Winnable(pots: seq<Pot>, id: int): Chips {
    if pots == [] then 0 else (if id in pots[0].eligible then pots[0].amount else 0) + Winnable(pots[1..], id)
  }

  ghost predicate UniqueIds(cs: seq<Contrib>) {
    forall i, j :: 0 <= i < j < |cs| ==> cs[i].id != cs[j].id
  }

  ghost predicate AllPositive(cs: seq<Contrib>) {
    forall i :: 0 <= i < |cs| ==> cs[i].invested > 0
  }

  lemma {:induction false} LiveIdsMembers(cs: seq<Contrib>)
    ensures forall id :: id in LiveIds(cs) <==> exists i :: 0 <= i < |cs| && cs[i].id == id && !cs[i].folded
    ensures LiveIds(cs) == [] <==> forall i :: 0 <= i < |cs| ==> cs[i].folded
  {
    if cs != [] {
      LiveIdsMembers(cs[1..]);
      forall id | exists i :: 0 <= i < |cs| && cs[i].id == id && !cs[i].folded ensures id in LiveIds(cs) {
        var i :| 0 <= i < |cs| && cs[i].id == id && !cs[i].folded;
        if i > 0 { assert cs[1..][i - 1] == cs[i]; }
      }
      forall id | id in LiveIds(cs) ensures exists i :: 0 <= i < |cs| && cs[i].id == id && !cs[i].folded {
        if id in LiveIds(cs[1..]) {
          var i :| 0 <= i < |cs[1..]| && cs[1..][i].id == id && !cs[1..][i].folded;
          assert cs[i + 1] == cs[1..][i];
        }
      }
      if LiveIds(cs) == [] {
        forall i | 0 <= i < |cs| ensures cs[i].folded {
          if i > 0 { assert cs[1..][i - 1] == cs[i]; }
        }
      }
    }
  }

  /** Everybody's chips above a level, and what a player with x chips matches of them. */
  function Above(cs: seq<Contrib>, prev: Chips): Chips {
    if cs == [] then 0 else cs[0].invested - prev + Above(cs[1..], prev)
  }

  function MatchedAbove(cs: seq<Contrib>, x: Chips, prev: Chips): Chips {
    if cs == [] then 0 else Min(cs[0].invested, x) - prev + MatchedAbove(cs[1..], x, prev)
  }

  /** Raising the level by h takes h from each of the n players: one layer. */
  lemma {:induction false} RaiseLevel(cs: seq<Contrib>, x: Chips, prev: Chips, level: Chips)
    ensures Above(cs, prev) == Above(cs, level) + (level - prev) * |cs|
    ensures MatchedAbove(cs, x, prev) == MatchedAbove(cs, x, level) + (level - prev) * |cs|
  {
    if cs != [] {
      RaiseLevel(cs[1..], x, prev, level);
      var h, n := level - prev, |cs|;
      assert h * n == h * (n - 1) + h;
    }
  }

  lemma {:induction false} AboveZero(cs: seq<Contrib>, x: Chips)
    ensures Above(cs, 0) == Staked(cs) && MatchedAbove(cs, x, 0) == Matched(cs, x)
  {
    if cs != [] { AboveZero(cs[1..], x); }
  }

  /** With nobody live the layers are all dead money. */
  lemma {:induction false} PeelDead(cs: seq<Contrib>, prev: Chips, dead: Chips)
    requires SortedByInvested(cs) && LiveIds(cs) == []
    requires forall i :: 0 <= i < |cs| ==> cs[i].invested >= prev
    ensures Peel(cs, prev, dead) == Peeled([], dead + Above(cs, prev))
  {
    if cs != [] {
      var level := cs[0].invested;
      if level <= prev {
        PeelDead(cs[1..], prev, dead);
      } else {
        RaiseLevel(cs, 0, prev, level);
        PeelDead(cs[1..], level, dead + (level - prev) * |cs|);
      }
    }
  }

  /** Peeling moves every chip above prev into a pot or into the trailing dead money. */
  lemma {:induction false} PeelConserves(cs: seq<Contrib>, prev: Chips, dead: Chips)
    requires SortedByInvested(cs) && forall i :: 0 <= i < |cs| ==> cs[i].invested >= prev
    ensures var p := Peel(cs, prev, dead); TotalOf(p.pots) + p.dead == dead + Above(cs, prev)
  {
    if cs != [] {
      var level := cs[0].invested;
      if level <= prev {
        PeelConserves(cs[1..], prev, dead);
      } else {
        RaiseLevel(cs, 0, prev, level);
        var layer := (level - prev) * |cs|;
        if LiveIds(cs) == [] {
          PeelConserves(cs[1..], level, dead + layer);
        } else {
          PeelConserves(cs[1..], level, 0);
          PotsCons(Pot(layer + dead, LiveIds(cs)), Peel(cs[1..], level, 0).pots, 0);
        }
      }
    }
  }

  lemma {:induction false} PotsCons(first: Pot, rest: seq<Pot>, id: int)
    ensures Winnable([first] + rest, id) == (if id in first.eligible then first.amount else 0) + Winnable(rest, id)
    ensures TotalOf([first] + rest) == first.amount + TotalOf(rest)
  {
    assert ([first] + rest)[1..] == rest;
  }

  lemma {:induction false} TotalUpdate(pots: seq<Pot>, k: nat, extra: Chips)
    requires k < |pots|
    ensures TotalOf(pots[k := Pot(pots[k].amount + extra, pots[k].eligible)]) == TotalOf(pots) + extra
  {
    var changed := pots[k := Pot(pots[k].amount + extra, pots[k].eligible)];
    if k > 0 {
      TotalUpdate(pots[1..], k - 1, extra);
      assert changed[1..] == pots[1..][k - 1 := Pot(pots[k].amount + extra, pots[k].eligible)];
    } else {
      assert changed[1..] == pots[1..];
    }
  }

  /** Someone live has chips above prev: there is a pot. */
  lemma {:induction false} PotsExist(cs: seq<Contrib>, prev: Chips, dead: Chips, j: nat)
    requires j < |cs| && !cs[j].folded && cs[j].invested > prev && SortedByInvested(cs)
    ensures Peel(cs, prev, dead).pots != []
  {
    LiveIdsMembers(cs);
    if cs[0].invested <= prev { PotsExist(cs[1..], prev, dead, j - 1); }
  }

  /** Nothing is lost or created exactly when some live contributor exists or nothing was staked. */
  lemma {:induction false} PotsConserve(cs: seq<Contrib>)
    requires SortedByInvested(cs) && AllPositive(cs)
    ensures TotalOf(PotsFrom(cs)) == Staked(cs) <==> LiveIds(cs) != [] || cs == []
    ensures LiveIds(cs) == [] ==> PotsFrom(cs) == []
  {
    PeelConserves(cs, 0, 0);
    AboveZero(cs, 0);
    LiveIdsMembers(cs);
    var p := Peel(cs, 0, 0);
    if LiveIds(cs) == [] {
      PeelDead(cs, 0, 0);
      StakedPositive(cs);
    } else {
      var j :| 0 <= j < |cs| && !cs[j].folded;
      PotsExist(cs, 0, 0, j);
      DeadNonNegative(cs, 0, 0);
      if p.dead > 0 { TotalUpdate(p.pots, |p.pots| - 1, p.dead); }
    }
  }

  lemma {:induction false} StakedPositive(cs: seq<Contrib>)
    requires AllPositive(cs)
    ensures Staked(cs) >= 0 && (cs != [] ==> Staked(cs) > 0)
  {
    if cs != [] { StakedPositive(cs[1..]); }
  }

  lemma {:induction false} DeadNonNegative(cs: seq<Contrib>, prev: Chips, dead: Chips)
    requires dead >= 0 && forall i :: 0 <= i < |cs| ==> cs[i].invested >= 0
    ensures Peel(cs, prev, dead).dead >= 0
  {
    if cs != [] {
      var level := cs[0].invested;
      if level <= prev {
        DeadNonNegative(cs[1..], prev, dead);
      } else {
        LayerPositive(level - prev, |cs|);
        DeadNonNegative(cs[1..], level, if LiveIds(cs) == [] then dead + (level - prev) * |cs| else 0);
      }
    }
  }

  lemma {:induction false} LayerPositive(height: int, n: int)
    requires height > 0 && n > 0
    ensures height * n > 0
  {
  }

  // ---------- who can win what ----------

  /** Only live contributors are ever eligible. */
  lemma {:induction false} EligibleAreLive(cs: seq<Contrib>, prev: Chips, dead: Chips, id: int)
    requires id !in LiveIds(cs)
    ensures forall k :: 0 <= k < |Peel(cs, prev, dead).pots| ==> id !in Peel(cs, prev, dead).pots[k].eligible
    ensures Winnable(Peel(cs, prev, dead).pots, id) == 0
  {
    if cs != [] {
      var level := cs[0].invested;
      if level <= prev {
        EligibleAreLive(cs[1..], prev, dead, id);
      } else if LiveIds(cs) == [] {
        EligibleAreLive(cs[1..], level, dead + (level - prev) * |cs|, id);
      } else {
        EligibleAreLive(cs[1..], level, 0, id);
      }
    }
  }

  lemma {:induction false} MatchedFloor(cs: seq<Contrib>, x: Chips)
    requires forall i :: 0 <= i < |cs| ==> cs[i].invested >= x
    ensures MatchedAbove(cs, x, x) == 0
  {
    if cs != [] { MatchedFloor(cs[1..], x); }
  }

  /** The layers a live player reaches hold what he matches of everybody's chips above prev. */
  lemma {:induction false} PeelWinnable(cs: seq<Contrib>, prev: Chips, i: nat)
    requires SortedByInvested(cs) && UniqueIds(cs) && i < |cs| && !cs[i].folded
    requires forall k :: 0 <= k < |cs| ==> cs[k].invested >= prev
    ensures Winnable(Peel(cs, prev, 0).pots, cs[i].id) == MatchedAbove(cs, cs[i].invested, prev)
  {
    var level, x, id := cs[0].invested, cs[i].invested, cs[i].id;
    var floor := if level <= prev then prev else level;
    if i > 0 {
      PeelWinnable(cs[1..], floor, i - 1);
    } else {
      LiveIdsMembers(cs[1..]);
      EligibleAreLive(cs[1..], floor, 0, id);
      MatchedFloor(cs[1..], level);
    }
    if level > prev {
      LiveIdsMembers(cs);
      RaiseLevel(cs, x, prev, level);
      PotsCons(Pot((level - prev) * |cs|, LiveIds(cs)), Peel(cs[1..], level, 0).pots, id);
    }
  }

  ghost predicate InEvery(pots: seq<Pot>, id: int) {
    forall k :: 0 <= k < |pots| ==> id in pots[k].eligible
  }

  /** The largest live stake is in every pot. */
  lemma {:induction false} LargestEverywhere(cs: seq<Contrib>, prev: Chips, dead: Chips, id: int, x: Chips)
    requires SortedByInvested(cs)
    requires x <= prev || Contrib(id, x, false) in cs
    requires forall j :: 0 <= j < |cs| && !cs[j].folded ==> cs[j].invested <= x
    ensures InEvery(Peel(cs, prev, dead).pots, id)
  {
    if cs != [] {
      var level := cs[0].invested;
      LiveIdsMembers(cs);
      if level <= prev {
        LargestEverywhere(cs[1..], prev, dead, id, x);
      } else if LiveIds(cs) == [] {
        LargestEverywhere(cs[1..], level, dead + (level - prev) * |cs|, id, x);
      } else {
        LargestEverywhere(cs[1..], level, 0, id, x);
      }
    }
  }

  lemma {:induction false} InEveryWinsAll(pots: seq<Pot>, id: int)
    requires InEvery(pots, id)
    ensures Winnable(pots, id) == TotalOf(pots)
  {
    if pots != [] { InEveryWinsAll(pots[1..], id); }
  }

  /** A live player somebody live has out-staked is not in the last pot. */
  lemma {:induction false} OutstakedNotLast(cs: seq<Contrib>, prev: Chips, dead: Chips, id: int, x: Chips, j: nat)
    requires SortedByInvested(cs) && j < |cs| && !cs[j].folded && cs[j].invested > x && cs[j].invested > prev
    requires forall k :: 0 <= k < |cs| && cs[k].id == id ==> cs[k].invested == x
    ensures var pots := Peel(cs, prev, dead).pots; pots != [] && id !in pots[|pots| - 1].eligible
  {
    var level := cs[0].invested;
    LiveIdsMembers(cs);
    if level <= prev {
      OutstakedNotLast(cs[1..], prev, dead, id, x, j - 1);
    } else if j > 0 && cs[j].invested > level {
      OutstakedNotLast(cs[1..], level, 0, id, x, j - 1);
    } else {
      LiveIdsMembers(cs[1..]);
      assert forall k :: 0 <= k < |cs[1..]| ==> cs[1..][k] == cs[k + 1];
      EligibleAreLive(cs[1..], level, 0, id);
    }
  }

  lemma {:induction false} WinnableUpdate(pots: seq<Pot>, k: nat, extra: Chips, id: int)
    requires k < |pots|
    ensures Winnable(pots[k := Pot(pots[k].amount + extra, pots[k].eligible)], id)
         == Winnable(pots, id) + if id in pots[k].eligible then extra else 0
  {
    var changed := pots[k := Pot(pots[k].amount + extra, pots[k].eligible)];
    if k > 0 {
      WinnableUpdate(pots[1..], k - 1, extra, id);
      assert changed[1..] == pots[1..][k - 1 := Pot(pots[k].amount + extra, pots[k].eligible)];
    } else {
      assert changed[1..] == pots[1..];
    }
  }

  /** No live contributor has staked more. */
  ghost predicate LargestLive(cs: seq<Contrib>, i: nat)
    requires i < |cs|
  {
    !cs[i].folded && forall j :: 0 <= j < |cs| && !cs[j].folded ==> cs[j].invested <= cs[i].invested
  }

  lemma {:induction false} AttachWinnable(p: Peeled, id: int)
    ensures p.dead <= 0 || p.pots == [] ==> Winnable(AttachDead(p), id) == Winnable(p.pots, id)
    ensures p.dead > 0 && p.pots != [] ==>
      Winnable(AttachDead(p), id)
        == Winnable(p.pots, id) + (if id in p.pots[|p.pots| - 1].eligible then p.dead else 0)
  {
    if p.dead > 0 && p.pots != [] {
      WinnableUpdate(p.pots, |p.pots| - 1, p.dead, id);
    }
  }

  lemma {:induction false} LargestWinsAll(cs: seq<Contrib>, i: nat)
    requires SortedByInvested(cs) && AllPositive(cs) && i < |cs| && LargestLive(cs, i)
    ensures Winnable(PotsFrom(cs), cs[i].id) == Staked(cs)
  {
    var id, p := cs[i].id, Peel(cs, 0, 0);
    LargestEverywhere(cs, 0, 0, id, cs[i].invested);
    InEveryWinsAll(p.pots, id);
    PeelConserves(cs, 0, 0);
    AboveZero(cs, 0);
    PotsExist(cs, 0, 0, i);
    DeadNonNegative(cs, 0, 0);
    AttachWinnable(p, id);
  }

  /** The side pots give each live player exactly what the chip-by-chip rule gives: everything if
      nobody live staked more, otherwise what he matched of every stake. */
  lemma {:induction false} PotsRefineChipRule(cs: seq<Contrib>, i: nat)
    requires SortedByInvested(cs) && UniqueIds(cs) && AllPositive(cs) && i < |cs| && !cs[i].folded
    ensures Winnable(PotsFrom(cs), cs[i].id) == if LargestLive(cs, i) then Staked(cs) else Matched(cs, cs[i].invested)
  {
    if LargestLive(cs, i) {
      LargestWinsAll(cs, i);
    } else {
      var id, x, p := cs[i].id, cs[i].invested, Peel(cs, 0, 0);
      var j :| 0 <= j < |cs| && !cs[j].folded && cs[j].invested > x;
      PeelWinnable(cs, 0, i);
      AboveZero(cs, x);
      OutstakedNotLast(cs, 0, 0, id, x, j);
      AttachWinnable(p, id);
    }
  }

  /** A folded player can win nothing. */
  lemma {:induction false} FoldedWinsNothing(cs: seq<Contrib>, i: nat)
    requires UniqueIds(cs) && i < |cs| && cs[i].folded
    ensures Winnable(PotsFrom(cs), cs[i].id) == 0
  {
    LiveIdsMembers(cs);
    EligibleAreLive(cs, 0, 0, cs[i].id);
    AttachWinnable(Peel(cs, 0, 0), cs[i].id);
  }

  // ---------- pending dead money ----------

  /** The level below contributor i's: the one before, or prev for the first. */
  function LevelBelow(cs: seq<Contrib>, i: nat, prev: Chips): Chips
    requires i < |cs|
  {
    if i == 0 then prev else cs[i - 1].invested
  }

  /** The layer of contributor i: its height times the contributors that reach it, for the live ones. */
  function LayerAt(cs: seq<Contrib>, i: nat, prev: Chips): Pot
    requires i < |cs|
  {
    Pot((cs[i].invested - LevelBelow(cs, i, prev)) * (|cs| - i), LiveIds(cs[i..]))
  }

  ghost predicate IsLayer(cs: seq<Contrib>, prev: Chips, pot: Pot) {
    exists i: nat :: i < |cs| && pot == LayerAt(cs, i, prev)
  }

  lemma {:induction false} LayerOfRest(cs: seq<Contrib>, prev: Chips, pot: Pot)
    requires cs != [] && IsLayer(cs[1..], cs[0].invested, pot)
    ensures IsLayer(cs, prev, pot)
  {
    var i: nat :| i < |cs[1..]| && pot == LayerAt(cs[1..], i, cs[0].invested);
    assert cs[1..][i..] == cs[i + 1..];
    assert pot == LayerAt(cs, i + 1, prev);
  }

  /** No pot ever takes in pending dead money: each is one layer, whole and alone. */
  lemma {:induction false} PotsAreLayers(cs: seq<Contrib>, prev: Chips, k: nat)
    requires SortedByInvested(cs) && (forall i :: 0 <= i < |cs| ==> cs[i].invested >= prev) && k < |Peel(cs, prev, 0).pots|
    ensures IsLayer(cs, prev, Peel(cs, prev, 0).pots[k])
  {
    var level := cs[0].invested;
    if LiveIds(cs) == [] {
      PeelDead(cs, prev, 0);
    } else if level <= prev {
      PotsAreLayers(cs[1..], level, k);
      LayerOfRest(cs, prev, Peel(cs, prev, 0).pots[k]);
    } else if k == 0 {
      assert cs[0..] == cs;
      assert Peel(cs, prev, 0).pots[0] == LayerAt(cs, 0, prev);
    } else {
      PotsAreLayers(cs[1..], level, k - 1);
      LayerOfRest(cs, prev, Peel(cs, prev, 0).pots[k]);
    }
  }

  /** The largest live stake, or 0. */
  function TopLive(cs: seq<Contrib>): Chips {
    if cs == [] then 0
    else
      var rest := TopLive(cs[1..]);
      if !cs[0].folded && cs[0].invested > rest then cs[0].invested else rest
  }

  /** Everybody's chips above x. */
  function Excess(cs: seq<Contrib>, x: Chips): Chips {
    if cs == [] then 0 else (if cs[0].invested > x then cs[0].invested - x else 0) + Excess(cs[1..], x)
  }

  lemma {:induction false} TopLiveReaches(cs: seq<Contrib>, floor: Chips)
    requires forall i :: 0 <= i < |cs| ==> cs[i].invested >= floor
    ensures LiveIds(cs) != [] ==> TopLive(cs) >= floor
    ensures LiveIds(cs) == [] ==> TopLive(cs) == 0
  {
    if cs != [] { TopLiveReaches(cs[1..], floor); }
  }

  lemma {:induction false} ExcessIsAbove(cs: seq<Contrib>, prev: Chips)
    requires forall i :: 0 <= i < |cs| ==> cs[i].invested >= prev
    ensures Excess(cs, prev) == Above(cs, prev)
  {
    if cs != [] { ExcessIsAbove(cs[1..], prev); }
  }

  function Max(a: int, b: int): int { if a > b then a else b }

  /** What is left pending is exactly what lies above the largest live stake. */
  lemma {:induction false} DeadIsExcess(cs: seq<Contrib>, prev: Chips)
    requires prev >= 0 && SortedByInvested(cs) && forall i :: 0 <= i < |cs| ==> cs[i].invested >= prev
    ensures Peel(cs, prev, 0).dead == Excess(cs, Max(TopLive(cs), prev))
  {
    if cs != [] {
      var level := cs[0].invested;
      if LiveIds(cs) == [] {
        PeelDead(cs, prev, 0);
        TopLiveReaches(cs, prev);
        ExcessIsAbove(cs, prev);
      } else {
        DeadIsExcess(cs[1..], level);
        TopLiveReaches(cs, level);
        TopLiveReaches(cs[1..], level);
      }
    }
  }

  /** Contributors in stake order: every pot before the last is exactly one layer, and the last is its
      layer plus everything staked above the largest live stake. */
  lemma {:induction false} LayersAndDead(cs: seq<Contrib>, k: nat)
    requires SortedByInvested(cs) && AllPositive(cs) && k < |PotsFrom(cs)|
    ensures IsLayer(cs, 0, Peel(cs, 0, 0).pots[k]) && |Peel(cs, 0, 0).pots| == |PotsFrom(cs)|
    ensures PotsFrom(cs)[k].eligible == Peel(cs, 0, 0).pots[k].eligible
    ensures PotsFrom(cs)[k].amount == Peel(cs, 0, 0).pots[k].amount
      + if k == |PotsFrom(cs)| - 1 then Excess(cs, TopLive(cs)) else 0
  {
    PotsAreLayers(cs, 0, k);
    DeadIsExcess(cs, 0);
    DeadNonNegative(cs, 0, 0);
    TopLiveReaches(cs, 0);
  }

  /** Every pot holds chips and has an eligible player; the eligible are live contributors. */
  ghost predicate WellFormedPots(pots: seq<Pot>, live: seq<int>) {
    forall k :: 0 <= k < |pots| ==>
      && pots[k].amount > 0 && pots[k].eligible != []
      && (forall id :: id in pots[k].eligible ==> id in live)
      && NoRepeats(pots[k].eligible)
  }

  ghost predicate NoRepeats(ids: seq<int>) {
    forall i, j :: 0 <= i < j < |ids| ==> ids[i] != ids[j]
  }

  lemma {:induction false} LiveIdsDistinct(cs: seq<Contrib>)
    requires UniqueIds(cs)
    ensures NoRepeats(LiveIds(cs))
  {
    if cs != [] {
      var rest := cs[1..];
      assert forall k :: 0 <= k < |rest| ==> rest[k] == cs[k + 1];
      LiveIdsDistinct(rest);
      LiveIdsMembers(rest);
      assert cs[0].id !in LiveIds(rest);
    }
  }

  lemma {:induction false} PeelWellFormed(cs: seq<Contrib>, prev: Chips, dead: Chips)
    requires SortedByInvested(cs) && UniqueIds(cs) && dead >= 0
    ensures WellFormedPots(Peel(cs, prev, dead).pots, LiveIds(cs))
  {
    if cs != [] {
      var level := cs[0].invested;
      LiveIdsDistinct(cs);
      if level <= prev {
        PeelWellFormed(cs[1..], prev, dead);
      } else {
        LayerPositive(level - prev, |cs|);
        PeelWellFormed(cs[1..], level, if LiveIds(cs) == [] then dead + (level - prev) * |cs| else 0);
      }
    }
  }

  lemma {:induction false} PotsWellFormed(cs: seq<Contrib>)
    requires SortedByInvested(cs) && UniqueIds(cs) && AllPositive(cs)
    ensures WellFormedPots(PotsFrom(cs), LiveIds(cs))
  {
    PeelWellFormed(cs, 0, 0);
  }

  /** The largest live stake is in every pot, and the last pot is for such stakes only. */
  lemma {:induction false} LastPotIsForLargest(cs: seq<Contrib>, i: nat)
    requires SortedByInvested(cs) && UniqueIds(cs) && AllPositive(cs) && i < |cs| && !cs[i].folded
    ensures PotsFrom(cs) != []
    ensures LargestLive(cs, i) ==> InEvery(PotsFrom(cs), cs[i].id)
    ensures !LargestLive(cs, i) ==> cs[i].id !in PotsFrom(cs)[|PotsFrom(cs)| - 1].eligible
  {
    var p := Peel(cs, 0, 0);
    PotsExist(cs, 0, 0, i);
    if LargestLive(cs, i) {
      LargestEverywhere(cs, 0, 0, cs[i].id, cs[i].invested);
    } else {
      var j :| 0 <= j < |cs| && !cs[j].folded && cs[j].invested > cs[i].invested;
      OutstakedNotLast(cs, 0, 0, cs[i].id, cs[i].invested, j);
    }
  }

  // ---------- from seats to contributors ----------

  function ContribOf(s: Seat): Contrib { Contrib(s.id, s.invested, s.IsFolded()) }

  /** The seats with chips in, in seat order. */
  function Contribs(seats: seq<Seat>): seq<Contrib> {
    if seats == [] then []
    else Contribs(seats[..|seats| - 1]) + (if seats[|seats| - 1].invested > 0 then [ContribOf(seats[|seats| - 1])] else [])
  }

  /** std::sort by stake. Its order among equal stakes is unspecified; here they keep their order. */
  function Insert(c: Contrib, cs: seq<Contrib>): seq<Contrib> {
    if cs == [] || c.invested < cs[0].invested then [c] + cs else [cs[0]] + Insert(c, cs[1..])
  }

  function SortByInvested(cs: seq<Contrib>): seq<Contrib> {
    if cs == [] then [] else Insert(cs[|cs| - 1], SortByInvested(cs[..|cs| - 1]))
  }

  lemma {:induction false} InsertSorts(c: Contrib, cs: seq<Contrib>)
    requires SortedByInvested(cs)
    ensures var r := Insert(c, cs);
      && SortedByInvested(r) && multiset(r) == multiset(cs) + multiset{c}
      && r != [] && (r[0] == c || (cs != [] && r[0] == cs[0]))
  {
    if cs != [] && c.invested >= cs[0].invested {
      assert cs == [cs[0]] + cs[1..];
      InsertSorts(c, cs[1..]);
    }
  }

  /** The same contributors, smallest stake first. */
  lemma {:induction false} SortSorts(cs: seq<Contrib>)
    ensures SortedByInvested(SortByInvested(cs)) && multiset(SortByInvested(cs)) == multiset(cs)
  {
    if cs != [] {
      var init, last := cs[..|cs| - 1], cs[|cs| - 1];
      assert cs == init + [last];
      SortSorts(init);
      InsertSorts(last, SortByInvested(init));
    }
  }

  // ---------- PotManager ----------

  class PotManager {
    var pots: seq<Pot>
    var totalPot: Chips

    constructor ()
      ensures pots == [] && totalPot == 0
    {
      pots, totalPot := [], 0;
    }

    method Reset()
      modifies this
      ensures pots == [] && totalPot == 0
    {
      pots, totalPot := [], 0;
    }

    /** Layered peeling over the sorted contributors. */
    method BuildPots(players: seq<P.PlayerState>) returns (built: seq<Pot>)
      modifies this
      ensures built == pots == PotsFrom(SortByInvested(Contribs(old(Views(players)))))
      ensures totalPot == TotalOf(pots)
    {
      ghost var views := Views(players);
      var contribs := CollectContribs(players);
      assert contribs == Contribs(views);
      pots, totalPot := [], 0;
      if contribs == [] {
        assert SortByInvested(contribs) == [] && PotsFrom([]) == [];
        return pots;
      }
      contribs := SortByInvested(contribs);
      var pendingDead := PeelLayers(contribs);
      AttachTrailing(pendingDead);
      AddUp();
      built := pots;
    }

    /** Reached only when every player with the largest stake has folded; see LayersAndDead. */
    method AttachTrailing(pendingDead: Chips)
      modifies this`pots
      ensures pots == AttachDead(Peeled(old(pots), pendingDead))
    {
      if pendingDead > 0 && pots != [] {
        var last := |pots| - 1;
        pots := pots[last := Pot(pots[last].amount + pendingDead, pots[last].eligible)];
      }
    }

    method PeelLayers(contribs: seq<Contrib>) returns (pendingDead: Chips)
      modifies this`pots
      requires pots == []
      ensures Peeled(pots, pendingDead) == Peel(contribs, 0, 0)
    {
      var prevLevel, i := 0, 0;
      pendingDead := 0;
      while i < |contribs|
        invariant 0 <= i <= |contribs|
        invariant Onto(pots, Peel(contribs[i..], prevLevel, pendingDead)) == Peel(contribs, 0, 0)
      {
        var level := contribs[i].invested;
        PeelStep(contribs, i, prevLevel, pendingDead);
        if level > prevLevel {
          var eligible := CollectLive(contribs, i);
          var potAmount := (level - prevLevel) * (|contribs| - i);
          if eligible == [] {
            pendingDead := pendingDead + potAmount;
          } else {
            OntoNext(pots, Pot(potAmount + pendingDead, eligible), Peel(contribs[i + 1..], level, 0));
            pots := pots + [Pot(potAmount + pendingDead, eligible)];
            pendingDead := 0;
          }
          prevLevel := level;
        }
        i := i + 1;
      }
    }

    method AddUp()
      modifies this`totalPot
      requires totalPot == 0
      ensures totalPot == TotalOf(pots)
    {
      var k := 0;
      while k < |pots|
        invariant 0 <= k <= |pots| && totalPot + TotalOf(pots[k..]) == TotalOf(pots)
      {
        assert pots[k..][1..] == pots[k + 1..];
        totalPot := totalPot + pots[k].amount;
        k := k + 1;
      }
    }
  }

  /** Pots already made, followed by what is still to be peeled. */
  ghost function Onto(pots: seq<Pot>, rest: Peeled): Peeled {
    Peeled(pots + rest.pots, rest.dead)
  }

  lemma {:induction false} PeelStep(cs: seq<Contrib>, i: nat, prev: Chips, dead: Chips)
    requires i < |cs|
    ensures var level, layer := cs[i].invested, (cs[i].invested - prev) * (|cs| - i);
      Peel(cs[i..], prev, dead) ==
        if level <= prev then Peel(cs[i + 1..], prev, dead)
        else if LiveIds(cs[i..]) == [] then Peel(cs[i + 1..], level, dead + layer)
        else
          var rest := Peel(cs[i + 1..], level, 0);
          Peeled([Pot(layer + dead, LiveIds(cs[i..]))] + rest.pots, rest.dead)
  {
    assert cs[i..][1..] == cs[i + 1..];
  }

  lemma {:induction false} OntoNext(pots: seq<Pot>, pot: Pot, rest: Peeled)
    ensures Onto(pots, Peeled([pot] + rest.pots, rest.dead)) == Onto(pots + [pot], rest)
  {
    assert pots + ([pot] + rest.pots) == (pots + [pot]) + rest.pots;
  }

  ghost function Views(players: seq<P.PlayerState>): (views: seq<Seat>)
    reads players
    ensures |views| == |players| && forall i :: 0 <= i < |players| ==> views[i] == players[i].View()
  {
    seq(|players|, i requires 0 <= i < |players| reads players => players[i].View())
  }

  method CollectContribs(players: seq<P.PlayerState>) returns (contribs: seq<Contrib>)
    ensures contribs == Contribs(Views(players))
  {
    contribs := [];
    var i := 0;
    ghost var views := Views(players);
    while i < |players|
      invariant 0 <= i <= |players| && contribs == Contribs(views[..i])
    {
      assert views[..i + 1][..i] == views[..i];
      if players[i].totalInvested > 0 {
        contribs := contribs + [Contrib(players[i].id, players[i].totalInvested, players[i].seatState == Folded)];
      }
      i := i + 1;
    }
    assert views[..|players|] == views;
  }

  /** The live ids from position i on. */
  method CollectLive(contribs: seq<Contrib>, i: nat) returns (eligible: seq<int>)
    requires i <= |contribs|
    ensures eligible == LiveIds(contribs[i..])
  {
    eligible := [];
    var j := i;
    while j < |contribs|
      invariant i <= j <= |contribs| && eligible + LiveIds(contribs[j..]) == LiveIds(contribs[i..])
    {
      assert contribs[j..][1..] == contribs[j + 1..];
      if !contribs[j].folded {
        eligible := eligible + [contribs[j].id];
      }
      j := j + 1;
    }
  }
}
