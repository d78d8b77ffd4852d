/**
 * The stock table: one signed quantity per (itemId, locationId) pair, and the
 * per-line upsert each document kind applies to it when posted.
 */
module StockLedger {

  /** A stock row's key: (itemId, locationId). */
  type Pair = (int, int)

  /** The stock table; a pair without a row has quantity 0. */
  type StockMap = map<Pair, int>

  /** How a document kind's lines change a stock row. */
  datatype Policy = Increment | Decrement | Set

  /**
   * A document line. `amount` is `qty` for receipts and dispatches and
   * `countedQty` for stocktakes.
   */
  datatype Line = Line(itemId: int, locationId: int, amount: int)

  function Key(l: Line): Pair
  {
    (l.itemId, l.locationId)
  }

  /** The quantity on hand: the row's quantity, or 0 when there is no row. */
  function Qty(s: StockMap, p: Pair): int
  {
    if p in s then s[p] else 0
  }

  /** The pairs a list of lines names. */
  function Pairs(lines: seq<Line>): set<Pair>
  {
    set l | l in lines :: Key(l)
  }

  /**
   * One `stock.upsert`: update the row of the line's pair when it exists,
   * otherwise create it. Exactly that row is touched.
   */
  function Upsert(s: StockMap, policy: Policy, l: Line): (r: StockMap)
    ensures r.Keys == s.Keys + {Key(l)}
    ensures forall p :: p in s && p != Key(l) ==> r[p] == s[p]
    ensures policy == Increment ==> r[Key(l)] == Qty(s, Key(l)) + l.amount
    ensures policy == Decrement ==> r[Key(l)] == Qty(s, Key(l)) - l.amount
    ensures policy == Set ==> r[Key(l)] == l.amount
  {
    var k := Key(l);
    match policy
    case Increment => if k in s then s[k := s[k] + l.amount] else s[k := l.amount]
    case Decrement => if k in s then s[k := s[k] - l.amount] else s[k := -l.amount]
    case Set => if k in s then s[k := l.amount] else s[k := l.amount]
  }

  /** The lines applied one upsert at a time, in document order. */
  function ApplyAll(s: StockMap, policy: Policy, lines: seq<Line>): (r: StockMap)
    ensures r.Keys == s.Keys + Pairs(lines)
    ensures forall p :: p in s && p !in Pairs(lines) ==> r[p] == s[p]
    decreases |lines|
  {
    if lines == [] then s
    else
      var init := lines[..|lines| - 1];
      assert lines == init + [lines[|lines| - 1]];
      assert Pairs(lines) == Pairs(init) + {Key(lines[|lines| - 1])};
      Upsert(ApplyAll(s, policy, init), policy, lines[|lines| - 1])
  }

  /** Applying one more line of a list extends the fold by one upsert. */
  lemma ApplyAllStep(s: StockMap, policy: Policy, lines: seq<Line>, i: int)
    requires 0 <= i < |lines|
    ensures ApplyAll(s, policy, lines[..i + 1]) == Upsert(ApplyAll(s, policy, lines[..i]), policy, lines[i])
  {
    assert lines[..i + 1][..i] == lines[..i];
  }

  /** The sum of the amounts of the lines naming `p`. */
  function Sum(lines: seq<Line>, p: Pair): int
    decreases |lines|
  {
    if lines == [] then 0
    else
      var last := lines[|lines| - 1];
      Sum(lines[..|lines| - 1], p) + (if Key(last) == p then last.amount else 0)
  }

  /** Receipt law: each pair gains the total `qty` of its lines. */
  lemma {:induction false} IncrementLaw(s: StockMap, lines: seq<Line>, p: Pair)
    ensures Qty(ApplyAll(s, Increment, lines), p) == Qty(s, p) + Sum(lines, p)
    decreases |lines|
  {
    if lines != [] {
      IncrementLaw(s, lines[..|lines| - 1], p);
    }
  }

  /** Dispatch law: each pair loses the total `qty` of its lines. */
  lemma {:induction false} DecrementLaw(s: StockMap, lines: seq<Line>, p: Pair)
    ensures Qty(ApplyAll(s, Decrement, lines), p) == Qty(s, p) - Sum(lines, p)
    decreases |lines|
  {
    if lines != [] {
      DecrementLaw(s, lines[..|lines| - 1], p);
    }
  }

  /** A pair no line names keeps its row, or stays without one. */
  lemma UntouchedPairs(s: StockMap, policy: Policy, lines: seq<Line>, p: Pair)
    requires p !in Pairs(lines)
    ensures (p in ApplyAll(s, policy, lines)) == (p in s)
    ensures Qty(ApplyAll(s, policy, lines), p) == Qty(s, p)
  {
  }

  /** With positive amounts, a named pair's sum is positive. */
  lemma {:induction false} SumPositive(lines: seq<Line>, p: Pair)
    requires forall i :: 0 <= i < |lines| ==> lines[i].amount > 0
    requires p in Pairs(lines)
    ensures Sum(lines, p) > 0
    decreases |lines|
  {
    var init, last := lines[..|lines| - 1], lines[|lines| - 1];
    assert lines == init + [last];
    assert Pairs(lines) == Pairs(init) + {Key(last)};
    assert forall i :: 0 <= i < |init| ==> init[i] == lines[i];
    assert Sum(lines, p) == Sum(init, p) + (if Key(last) == p then last.amount else 0);
    if p in Pairs(init) {
      SumPositive(init, p);
    } else {
      SumNonNegative(init, p);
    }
  }

  /** With non-negative amounts (a stocktake's counts), every pair's sum is non-negative. */
  lemma {:induction false} SumNonNegative(lines: seq<Line>, p: Pair)
    requires forall i :: 0 <= i < |lines| ==> lines[i].amount >= 0
    ensures Sum(lines, p) >= 0
    decreases |lines|
  {
    if lines != [] {
      var init := lines[..|lines| - 1];
      assert forall i :: 0 <= i < |init| ==> init[i] == lines[i];
      SumNonNegative(init, p);
    }
  }

  /**
   * A dispatch naming a pair that has no row creates the row with the
   * negated total quantity, so stock goes negative.
   */
  lemma DispatchCreatesNegativeRow(s: StockMap, lines: seq<Line>, p: Pair)
    requires forall i :: 0 <= i < |lines| ==> lines[i].amount > 0
    requires p !in s && p in Pairs(lines)
    ensures p in ApplyAll(s, Decrement, lines)
    ensures ApplyAll(s, Decrement, lines)[p] == -Sum(lines, p) < 0
  {
    DecrementLaw(s, lines, p);
    SumPositive(lines, p);
  }

  /** Stocktake law: the last line naming a pair decides its quantity. */
  lemma {:induction false} SetLastLineWins(s: StockMap, lines: seq<Line>, i: int)
    requires 0 <= i < |lines|
    requires forall j :: i < j < |lines| ==> Key(lines[j]) != Key(lines[i])
    ensures Key(lines[i]) in ApplyAll(s, Set, lines)
    ensures ApplyAll(s, Set, lines)[Key(lines[i])] == lines[i].amount
    decreases |lines|
  {
    var init := lines[..|lines| - 1];
    if i < |lines| - 1 {
      assert Key(lines[i]) == Key(init[i]);
      SetLastLineWins(s, init, i);
    }
  }

  /** Every named pair has a last line naming it. */
  lemma {:induction false} LastLineExists(lines: seq<Line>, p: Pair) returns (i: int)
    requires p in Pairs(lines)
    ensures 0 <= i < |lines| && Key(lines[i]) == p
    ensures forall j :: i < j < |lines| ==> Key(lines[j]) != p
    decreases |lines|
  {
    var init, last := lines[..|lines| - 1], lines[|lines| - 1];
    assert lines == init + [last];
    if Key(last) == p {
      i := |lines| - 1;
    } else {
      assert p in Pairs(init);
      i := LastLineExists(init, p);
    }
  }

  /**
   * A stocktake's result for a named pair does not depend on the prior
   * stock, not even on whether the row existed or was negative.
   */
  lemma SetIgnoresPriorStock(s1: StockMap, s2: StockMap, lines: seq<Line>, p: Pair)
    requires p in Pairs(lines)
    ensures p in ApplyAll(s1, Set, lines) && p in ApplyAll(s2, Set, lines)
    ensures ApplyAll(s1, Set, lines)[p] == ApplyAll(s2, Set, lines)[p]
  {
    var i := LastLineExists(lines, p);
    SetLastLineWins(s1, lines, i);
    SetLastLineWins(s2, lines, i);
  }

  /** Posting the same stocktake twice leaves the stock as posting it once. */
  lemma SetIdempotent(s: StockMap, lines: seq<Line>)
    ensures ApplyAll(ApplyAll(s, Set, lines), Set, lines) == ApplyAll(s, Set, lines)
  {
    var once := ApplyAll(s, Set, lines);
    var twice := ApplyAll(once, Set, lines);
    forall p | p in twice
      ensures twice[p] == once[p]
    {
      if p in Pairs(lines) {
        SetIgnoresPriorStock(once, s, lines, p);
      }
    }
  }

  /** Posting the same receipt twice adds its quantities twice. */
  lemma RepostIncrementsTwice(s: StockMap, lines: seq<Line>, p: Pair)
    ensures Qty(ApplyAll(ApplyAll(s, Increment, lines), Increment, lines), p)
         == Qty(s, p) + 2 * Sum(lines, p)
  {
    IncrementLaw(s, lines, p);
    IncrementLaw(ApplyAll(s, Increment, lines), lines, p);
  }

  lemma {:induction false} SumAppend(a: seq<Line>, b: seq<Line>, p: Pair)
    ensures Sum(a + b, p) == Sum(a, p) + Sum(b, p)
    decreases |b|
  {
    if b != [] {
      var init, last := b[..|b| - 1], b[|b| - 1];
      assert (a + b)[..|a + b| - 1] == a + init;
      assert (a + b)[|a + b| - 1] == last;
      assert Sum(a + b, p) == Sum(a + init, p) + (if Key(last) == p then last.amount else 0);
      SumAppend(a, init, p);
    } else {
      assert a + b == a;
    }
  }

  /** The sum for a pair depends only on the multiset of lines. */
  lemma {:induction false} SumPermutation(l1: seq<Line>, l2: seq<Line>, p: Pair)
    requires multiset(l1) == multiset(l2)
    ensures Sum(l1, p) == Sum(l2, p)
    decreases |l1|
  {
    if l1 == [] {
      assert |l2| == |multiset(l2)| == 0;
    } else {
      var init, last := l1[..|l1| - 1], l1[|l1| - 1];
      assert l1 == init + [last];
      assert last in multiset(l2);
      var k :| 0 <= k < |l2| && l2[k] == last;
      var rest := l2[..k] + l2[k + 1..];
      assert l2 == l2[..k] + [last] + l2[k + 1..];
      assert multiset(l1) == multiset(init) + multiset{last};
      assert multiset(l2) == multiset(l2[..k]) + multiset{last} + multiset(l2[k + 1..]);
      assert multiset(rest) == multiset(l2[..k]) + multiset(l2[k + 1..]);
      assert multiset(init) == multiset(l1) - multiset{last};
      assert multiset(rest) == multiset(l2) - multiset{last};
      SumPermutation(init, rest, p);
      SumAppend(l2[..k] + [last], l2[k + 1..], p);
      SumAppend(l2[..k], [last], p);
      SumAppend(l2[..k], l2[k + 1..], p);
      assert Sum([last], p) == Sum([], p) + (if Key(last) == p then last.amount else 0);
    }
  }

  /**
   * Receipts and dispatches: reordering the lines does not change the
   * resulting stock, since each pair only accumulates its total.
   */
  lemma AccumulationIgnoresOrder(s: StockMap, policy: Policy, l1: seq<Line>, l2: seq<Line>)
    requires policy != Set
    requires multiset(l1) == multiset(l2)
    ensures ApplyAll(s, policy, l1) == ApplyAll(s, policy, l2)
  {
    var r1, r2 := ApplyAll(s, policy, l1), ApplyAll(s, policy, l2);
    assert Pairs(l1) == Pairs(l2) by {
      forall l | l in l1 ensures l in l2 { assert l in multiset(l1); }
      forall l | l in l2 ensures l in l1 { assert l in multiset(l2); }
    }
    forall p | p in r1
      ensures r1[p] == r2[p]
    {
      SumPermutation(l1, l2, p);
      if policy == Increment {
        IncrementLaw(s, l1, p);
        IncrementLaw(s, l2, p);
      } else {
        DecrementLaw(s, l1, p);
        DecrementLaw(s, l2, p);
      }
    }
  }
}
