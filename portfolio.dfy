/**
 * The player's holdings: a JavaScript object from sector name to share
 * count, kept here as an association list in insertion order, and the
 * value of those holdings at the live prices.
 */
module Portfolio {
  import opened Options
  import opened Pricing

  datatype Holding = Holding(name: string, qty: int)

  const INITIAL_CASH: int := 1000

  /** Object keys are unique. */
  predicate DistinctKeys(hs: seq<Holding>)
  {
    forall i, j :: 0 <= i < j < |hs| ==> hs[i].name != hs[j].name
  }

  /** `holdings[name] || 0`. */
  function Qty(hs: seq<Holding>, name: string): int
  {
    if |hs| == 0 then 0
    else if hs[0].name == name then hs[0].qty
    else Qty(hs[1..], name)
  }

  /** `{...holdings, [name]: q}`: an existing key keeps its place, a new one goes last. */
  function SetQty(hs: seq<Holding>, name: string, q: int): (r: seq<Holding>)
    ensures Qty(r, name) == q
    ensures forall n :: n != name ==> Qty(r, n) == Qty(hs, n)
  {
    if |hs| == 0 then [Holding(name, q)]
    else if hs[0].name == name then [Holding(name, q)] + hs[1..]
    else [hs[0]] + SetQty(hs[1..], name, q)
  }

  /** Unique keys and no negative count: what buys and sells maintain. */
  predicate WellFormed(hs: seq<Holding>)
  {
    DistinctKeys(hs) && forall h :: h in hs ==> h.qty >= 0
  }

  /** With no negative entry, every count read is non-negative. */
  lemma {:induction false} QtyNonNegative(hs: seq<Holding>, name: string)
    requires forall h :: h in hs ==> h.qty >= 0
    ensures Qty(hs, name) >= 0
  {
    if |hs| > 0 {
      assert hs[0] in hs;
      assert forall h :: h in hs[1..] ==> h in hs;
      QtyNonNegative(hs[1..], name);
    }
  }

  /** Setting a count adds no entry other than the one written. */
  lemma {:induction false} SetQtyEntries(hs: seq<Holding>, name: string, q: int)
    ensures forall h :: h in SetQty(hs, name, q) ==> h in hs || h == Holding(name, q)
  {
    if |hs| > 0 && hs[0].name != name {
      SetQtyEntries(hs[1..], name, q);
      assert SetQty(hs, name, q) == [hs[0]] + SetQty(hs[1..], name, q);
      assert forall h :: h in hs[1..] ==> h in hs;
    } else if |hs| > 0 {
      assert forall h :: h in hs[1..] ==> h in hs;
    }
  }

  /** Setting a non-negative count keeps the keys unique and the counts non-negative. */
  lemma {:induction false} SetQtyWellFormed(hs: seq<Holding>, name: string, q: int)
    requires WellFormed(hs) && q >= 0
    ensures WellFormed(SetQty(hs, name, q))
  {
    var r := SetQty(hs, name, q);
    SetQtyEntries(hs, name, q);
    if |hs| > 0 && hs[0].name != name {
      var rest := hs[1..];
      assert forall h :: h in rest ==> h in hs;
      assert DistinctKeys(rest) by {
        forall i, j | 0 <= i < j < |rest| ensures rest[i].name != rest[j].name {
          assert rest[i] == hs[i + 1] && rest[j] == hs[j + 1];
        }
      }
      SetQtyWellFormed(rest, name, q);
      var tail := SetQty(rest, name, q);
      SetQtyEntries(rest, name, q);
      assert r == [hs[0]] + tail;
      forall j | 0 <= j < |tail| ensures tail[j].name != hs[0].name {
        assert tail[j] in tail;
        if tail[j] != Holding(name, q) {
          var k :| 0 <= k < |rest| && rest[k] == tail[j];
          assert hs[k + 1] == tail[j];
        }
      }
      assert forall i, j :: 0 < i < j < |r| ==> r[i] == tail[i - 1] && r[j] == tail[j - 1];
    } else if |hs| > 0 {
      assert r == [Holding(name, q)] + hs[1..];
      assert forall i :: 0 < i < |r| ==> r[i] == hs[i];
    }
  }

  /** The worth of one entry: its count at the live price, or 0 when no live sector has that name. */
  function EntryValue(h: Holding, roster: seq<Sector>): int
  {
    match Find(roster, h.name)
    case Some(s) => s.price * h.qty
    case None => 0
  }

  /** totalHoldingsValue: the sum of the entries' worth. */
  function HoldingsValue(hs: seq<Holding>, roster: seq<Sector>): int
  {
    if |hs| == 0 then 0 else EntryValue(hs[0], roster) + HoldingsValue(hs[1..], roster)
  }

  /** Non-negative counts at prices of at least 5 are worth a non-negative amount. */
  lemma {:induction false} HoldingsValueNonNegative(hs: seq<Holding>, roster: seq<Sector>)
    requires forall h :: h in hs ==> h.qty >= 0
    requires forall s :: s in roster ==> s.price >= PRICE_FLOOR
    ensures HoldingsValue(hs, roster) >= 0
  {
    if |hs| > 0 {
      assert hs[0] in hs;
      assert forall h :: h in hs[1..] ==> h in hs;
      HoldingsValueNonNegative(hs[1..], roster);
      match Find(roster, hs[0].name)
      case Some(s) =>
        assert s.price * hs[0].qty >= 0 by {
          assert s.price >= 0 && hs[0].qty >= 0;
        }
      case None =>
    }
  }

  /** Re-counting a live sector replaces its old count's worth by the new count's worth. */
  lemma {:induction false} SetQtyValue(hs: seq<Holding>, roster: seq<Sector>, name: string, q: int, s: Sector)
    requires Find(roster, name) == Some(s)
    ensures HoldingsValue(SetQty(hs, name, q), roster) + s.price * Qty(hs, name)
            == HoldingsValue(hs, roster) + s.price * q
  {
    var r := SetQty(hs, name, q);
    if |hs| == 0 {
      assert r == [Holding(name, q)];
      assert HoldingsValue(r, roster) == EntryValue(Holding(name, q), roster) + HoldingsValue(r[1..], roster);
    } else if hs[0].name == name {
      assert r[0] == Holding(name, q) && r[1..] == hs[1..];
      assert HoldingsValue(r, roster) == EntryValue(Holding(name, q), roster) + HoldingsValue(hs[1..], roster);
    } else {
      SetQtyValue(hs[1..], roster, name, q, s);
      assert r[0] == hs[0] && r[1..] == SetQty(hs[1..], name, q);
      assert HoldingsValue(r, roster) == EntryValue(hs[0], roster) + HoldingsValue(r[1..], roster);
    }
  }

  lemma MulStep(p: int, q: int)
    ensures p * (q + 1) == p * q + p
    ensures p * (q - 1) == p * q - p
  {
  }

  /**
   * A trade at the quoted price leaves net worth alone: buying one share moves
   * the price from cash into holdings, selling one moves it back.
   */
  lemma TradeKeepsNetWorth(hs: seq<Holding>, roster: seq<Sector>, cash: int, name: string, s: Sector)
    requires Find(roster, name) == Some(s)
    ensures (cash - s.price) + HoldingsValue(SetQty(hs, name, Qty(hs, name) + 1), roster)
            == cash + HoldingsValue(hs, roster)
    ensures (cash + s.price) + HoldingsValue(SetQty(hs, name, Qty(hs, name) - 1), roster)
            == cash + HoldingsValue(hs, roster)
  {
    var q := Qty(hs, name);
    SetQtyValue(hs, roster, name, q + 1, s);
    SetQtyValue(hs, roster, name, q - 1, s);
    MulStep(s.price, q);
  }
}
