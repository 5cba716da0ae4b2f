/**
 * The bounded price history kept per sector: the last nine earlier prices
 * followed by the newest one, oldest first.
 */
module History {
  import opened Trend

  const HISTORY_KEPT: nat := 9
  const HISTORY_CAP: nat := 10

  function Min(a: int, b: int): int
  {
    if a <= b then a else b
  }

  /** `[...prev.slice(-9), price]`: drop the oldest entries so at most ten remain. */
  function BoundedAppend(prev: seq<int>, price: int): (r: seq<int>)
    ensures |r| == Min(HISTORY_CAP, |prev| + 1)
    ensures r[|r| - 1] == price
  {
    LastN(prev, HISTORY_KEPT) + [price]
  }

  /** Before the new price stand the old history's newest (up to) nine entries, in order. */
  lemma BoundedAppendKeepsNewest(prev: seq<int>, price: int)
    ensures var r := BoundedAppend(prev, price);
            r[..|r| - 1] == prev[|prev| - (|r| - 1)..]
  {
    var r := BoundedAppend(prev, price);
    assert r[..|r| - 1] == LastN(prev, HISTORY_KEPT);
  }

  /** The history after appending each of `prices` in turn. */
  function Replay(start: seq<int>, prices: seq<int>): seq<int>
    decreases |prices|
  {
    if |prices| == 0 then start
    else Replay(BoundedAppend(start, prices[0]), prices[1..])
  }

  /** x is the trailing part of y. */
  predicate IsSuffix(x: seq<int>, y: seq<int>)
  {
    |x| <= |y| && x == y[|y| - |x|..]
  }

  lemma SuffixExtend(x: seq<int>, y: seq<int>, z: seq<int>)
    requires IsSuffix(x, y)
    ensures IsSuffix(x + z, y + z)
  {
    assert (y + z)[|y + z| - |x + z|..] == y[|y| - |x|..] + z;
  }

  lemma SuffixTrans(x: seq<int>, y: seq<int>, z: seq<int>)
    requires IsSuffix(x, y) && IsSuffix(y, z)
    ensures IsSuffix(x, z)
  {
    assert z[|z| - |y|..][|y| - |x|..] == z[|z| - |x|..];
  }

  lemma SplitFirst(start: seq<int>, prices: seq<int>)
    requires |prices| > 0
    ensures start + [prices[0]] + prices[1..] == start + prices
  {
    assert [prices[0]] + prices[1..] == prices;
  }

  /** One append keeps the newest entries of the old history followed by the new price. */
  lemma BoundedAppendSuffix(prev: seq<int>, price: int)
    ensures IsSuffix(BoundedAppend(prev, price), prev + [price])
  {
    var r := BoundedAppend(prev, price);
    BoundedAppendKeepsNewest(prev, price);
    assert r == r[..|r| - 1] + [price];
  }

  /**
   * n turns from a history of one to ten entries leave min(10, |start| + n)
   * entries, and those are the newest entries of the full record start + prices
   * in their original order: the oldest are dropped first.
   */
  lemma {:induction false} ReplayBounded(start: seq<int>, prices: seq<int>)
    requires 1 <= |start| <= HISTORY_CAP
    ensures |Replay(start, prices)| == Min(HISTORY_CAP, |start| + |prices|)
    ensures IsSuffix(Replay(start, prices), start + prices)
    decreases |prices|
  {
    if |prices| > 0 {
      var next := BoundedAppend(start, prices[0]);
      assert Replay(start, prices) == Replay(next, prices[1..]);
      ReplayBounded(next, prices[1..]);
      BoundedAppendSuffix(start, prices[0]);
      SuffixExtend(next, start + [prices[0]], prices[1..]);
      SplitFirst(start, prices);
      SuffixTrans(Replay(start, prices), next + prices[1..], start + prices);
    } else {
      assert start + prices == start;
    }
  }

  /** From the initial one-entry history, n turns leave min(10, n + 1) entries ending in the last price. */
  lemma ReplayFromInitial(initial: int, prices: seq<int>)
    requires |prices| > 0
    ensures |Replay([initial], prices)| == Min(HISTORY_CAP, |prices| + 1)
    ensures Replay([initial], prices)[|Replay([initial], prices)| - 1] == prices[|prices| - 1]
  {
    ReplayBounded([initial], prices);
    var r, full := Replay([initial], prices), [initial] + prices;
    assert r[|r| - 1] == full[|full| - 1];
  }
}
