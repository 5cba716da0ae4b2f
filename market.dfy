/**
 * The game session: the live sectors, their price histories, the event log
 * and the player's cash and holdings, with the turn step and the two trades.
 */
module Simulation {
  import opened Options
  import opened Trend
  import opened History
  import opened Events
  import opened Pricing
  import opened Portfolio

  /** An entry of the sector catalog the session samples from. */
  datatype Listing = Listing(name: string, volatility: Volatility)

  const SECTOR_CATALOG: seq<Listing> := [
    Listing("Tech", High), Listing("Pharma", Medium), Listing("Energy", Medium),
    Listing("Retail", Low), Listing("Finance", Medium), Listing("Aero", High),
    Listing("Agro", Low), Listing("Crypto", High), Listing("Luxury", Low),
    Listing("Auto", Medium), Listing("Media", Medium), Listing("Bio", High),
    Listing("Real Estate", Medium), Listing("Logistics", Low), Listing("Defense", Medium),
    Listing("Food", Low), Listing("Telecom", Medium), Listing("Tourism", Medium),
    Listing("Healthcare", High), Listing("Construction", Medium), Listing("Insurance", Medium)
  ]

  const SAMPLE_SIZE: nat := 8

  /** The three data tables: the relation graph and the two event catalogs. */
  datatype Config = Config(relations: map<string, seq<Relation>>, crises: seq<Event>, news: seq<Event>)

  /** `sectorRelations[name] || {}`. */
  function RelationsOf(cfg: Config, name: string): seq<Relation>
  {
    if name in cfg.relations then cfg.relations[name] else []
  }

  /** `priceHistory[name] || [price]`: the history the trend estimator reads. */
  function HistoryFor(history: map<string, seq<int>>, s: Sector): seq<int>
  {
    if s.name in history then history[s.name] else [s.price]
  }

  /** `updatedHistory[name] || []`: the history the append step extends. */
  function PriorHistory(history: map<string, seq<int>>, name: string): seq<int>
  {
    if name in history then history[name] else []
  }

  predicate DistinctNames(ss: seq<Sector>)
  {
    forall i, j :: 0 <= i < j < |ss| ==> ss[i].name != ss[j].name
  }

  /** The names of the first n sectors. */
  function Names(ss: seq<Sector>, n: nat): set<string>
    requires n <= |ss|
  {
    if n == 0 then {} else Names(ss, n - 1) + {ss[n - 1].name}
  }

  function NameSet(ss: seq<Sector>): set<string>
  {
    Names(ss, |ss|)
  }

  lemma {:induction false} NamesMember(ss: seq<Sector>, n: nat, k: string)
    requires n <= |ss|
    ensures k in Names(ss, n) <==> exists j :: 0 <= j < n && ss[j].name == k
  {
    if n > 0 {
      NamesMember(ss, n - 1, k);
      if k == ss[n - 1].name {
        assert 0 <= n - 1 < n && ss[n - 1].name == k;
      }
    }
  }

  /** Two rosters whose names agree position by position have the same name set. */
  lemma {:induction false} SameNames(a: seq<Sector>, b: seq<Sector>, n: nat)
    requires n <= |a| && n <= |b|
    requires forall j :: 0 <= j < n ==> a[j].name == b[j].name
    ensures Names(a, n) == Names(b, n)
  {
    if n > 0 {
      SameNames(a, b, n - 1);
    }
  }

  /** With distinct names, sector i's name is not among the names before it. */
  lemma NameFresh(ss: seq<Sector>, i: nat)
    requires i < |ss|
    requires DistinctNames(ss)
    ensures ss[i].name !in Names(ss, i)
  {
    NamesMember(ss, i, ss[i].name);
  }

  /** A sector's price is at least the floor and is the newest entry of its one-to-ten-entry history. */
  predicate Tracked(s: Sector, history: map<string, seq<int>>)
  {
    && s.price >= PRICE_FLOOR
    && s.name in history
    && 1 <= |history[s.name]| <= HISTORY_CAP
    && history[s.name][|history[s.name]| - 1] == s.price
  }

  lemma CatalogNamesDistinct()
    ensures forall i, j :: 0 <= i < j < |SECTOR_CATALOG| ==> SECTOR_CATALOG[i].name != SECTOR_CATALOG[j].name
  {
  }

  /** The outcome of the shuffle: eight distinct catalog positions. */
  predicate ValidPicks(picks: seq<nat>)
  {
    && |picks| == SAMPLE_SIZE
    && (forall i :: 0 <= i < |picks| ==> picks[i] < |SECTOR_CATALOG|)
    && (forall i, j :: 0 <= i < j < |picks| ==> picks[i] != picks[j])
  }

  /**
   * One sector's update in a turn: the two averages over its history, its
   * influence score over the start-of-turn roster, then Evolve.
   */
  function EvolveInTurn(s: Sector, roster: seq<Sector>, priceHistory: map<string, seq<int>>, cfg: Config,
                        sel: Selection, draw: SectorDraw): (r: Sector)
    requires ValidSectorDraw(draw)
    ensures r.name == s.name && r.volatility == s.volatility && r.price >= PRICE_FLOOR
  {
    var h := HistoryFor(priceHistory, s);
    Evolve(s, ShortEma(h), LongEma(h), InfluenceSum(RelationsOf(cfg, s.name), roster), sel, draw)
  }

  /** The turn labels a sector Bullish exactly when its history passes the trend test. */
  lemma EvolveInTurnMomentum(s: Sector, roster: seq<Sector>, priceHistory: map<string, seq<int>>, cfg: Config,
                             sel: Selection, draw: SectorDraw)
    requires ValidSectorDraw(draw)
    ensures var r := EvolveInTurn(s, roster, priceHistory, cfg, sel, draw);
            r.signal.Reading? && (r.signal.momentum == Bullish <==> TrendingUp(HistoryFor(priceHistory, s)))
  {
    var h := HistoryFor(priceHistory, s);
    EvolveSignal(s, ShortEma(h), LongEma(h), InfluenceSum(RelationsOf(cfg, s.name), roster), sel, draw);
  }

  /** Evolve applied to the computed averages and score is the turn's update of the sector. */
  lemma EvolveInTurnFrom(s: Sector, roster: seq<Sector>, priceHistory: map<string, seq<int>>, cfg: Config,
                         sel: Selection, draw: SectorDraw, shortEma: real, longEma: real, score: real)
    requires ValidSectorDraw(draw)
    requires shortEma == Ema(LastN(HistoryFor(priceHistory, s), SHORT_PERIOD), SHORT_PERIOD)
    requires longEma == Ema(LastN(HistoryFor(priceHistory, s), LONG_PERIOD), LONG_PERIOD)
    requires score == InfluenceSum(RelationsOf(cfg, s.name), roster)
    ensures Evolve(s, shortEma, longEma, score, sel, draw) == EvolveInTurn(s, roster, priceHistory, cfg, sel, draw)
  {
  }

  predicate ValidDraws(sectorDraws: seq<SectorDraw>)
  {
    forall i :: 0 <= i < |sectorDraws| ==> ValidSectorDraw(sectorDraws[i])
  }

  /** The first n sectors of the roster after `sectors.map`. */
  function EvolveAll(roster: seq<Sector>, priceHistory: map<string, seq<int>>, cfg: Config,
                     sel: Selection, sectorDraws: seq<SectorDraw>, n: nat): seq<Sector>
    requires n <= |roster| == |sectorDraws|
    requires ValidDraws(sectorDraws)
  {
    if n == 0 then []
    else EvolveAll(roster, priceHistory, cfg, sel, sectorDraws, n - 1)
         + [EvolveInTurn(roster[n - 1], roster, priceHistory, cfg, sel, sectorDraws[n - 1])]
  }

  /** Entry i of the mapped roster is sector i evolved with draw i. */
  lemma {:induction false} EvolveAllAt(roster: seq<Sector>, priceHistory: map<string, seq<int>>, cfg: Config,
                                       sel: Selection, sectorDraws: seq<SectorDraw>, n: nat)
    requires n <= |roster| == |sectorDraws|
    requires ValidDraws(sectorDraws)
    ensures |EvolveAll(roster, priceHistory, cfg, sel, sectorDraws, n)| == n
    ensures forall i :: 0 <= i < n ==>
              EvolveAll(roster, priceHistory, cfg, sel, sectorDraws, n)[i]
              == EvolveInTurn(roster[i], roster, priceHistory, cfg, sel, sectorDraws[i])
  {
    if n > 0 {
      EvolveAllAt(roster, priceHistory, cfg, sel, sectorDraws, n - 1);
      var prefix := EvolveAll(roster, priceHistory, cfg, sel, sectorDraws, n - 1);
      var all := EvolveAll(roster, priceHistory, cfg, sel, sectorDraws, n);
      assert all == prefix + [EvolveInTurn(roster[n - 1], roster, priceHistory, cfg, sel, sectorDraws[n - 1])];
      forall i | 0 <= i < n
        ensures all[i] == EvolveInTurn(roster[i], roster, priceHistory, cfg, sel, sectorDraws[i])
      {
        if i < n - 1 {
          assert all[i] == prefix[i];
        }
      }
    }
  }

  /**
   * The `sectors.map` of a turn: every sector evolved from the start-of-turn
   * roster and histories, with its two averages and its influence score.
   */
  method EvolveSectors(roster: seq<Sector>, priceHistory: map<string, seq<int>>, cfg: Config,
                       sel: Selection, sectorDraws: seq<SectorDraw>) returns (updated: seq<Sector>)
    requires |sectorDraws| == |roster|
    requires ValidDraws(sectorDraws)
    ensures updated == EvolveAll(roster, priceHistory, cfg, sel, sectorDraws, |roster|)
  {
    updated := [];
    for i := 0 to |roster|
      invariant updated == EvolveAll(roster, priceHistory, cfg, sel, sectorDraws, i)
    {
      var s := roster[i];
      var h := HistoryFor(priceHistory, s);
      var shortEma := CalculateEMA(LastN(h, SHORT_PERIOD), SHORT_PERIOD);
      var longEma := CalculateEMA(LastN(h, LONG_PERIOD), LONG_PERIOD);
      var influenceScore := InfluenceScore(RelationsOf(cfg, s.name), roster);
      var next := Evolve(s, shortEma, longEma, influenceScore, sel, sectorDraws[i]);
      EvolveInTurnFrom(s, roster, priceHistory, cfg, sel, sectorDraws[i], shortEma, longEma, influenceScore);
      updated := updated + [next];
    }
  }

  /** The history map after the `forEach` has processed the first n updated sectors. */
  function AppendAll(priceHistory: map<string, seq<int>>, updated: seq<Sector>, n: nat): map<string, seq<int>>
    requires n <= |updated|
  {
    if n == 0 then priceHistory
    else
      var h := AppendAll(priceHistory, updated, n - 1);
      var s := updated[n - 1];
      h[s.name := BoundedAppend(PriorHistory(h, s.name), s.price)]
  }

  /** After n sectors the keys are the old keys and the n names. */
  lemma {:induction false} AppendAllKeys(priceHistory: map<string, seq<int>>, updated: seq<Sector>, n: nat, k: string)
    requires n <= |updated|
    ensures k in AppendAll(priceHistory, updated, n) <==> k in priceHistory || k in Names(updated, n)
  {
    if n > 0 {
      AppendAllKeys(priceHistory, updated, n - 1, k);
    }
  }

  /** A key that is none of the n names keeps its old history. */
  lemma {:induction false} AppendAllOthers(priceHistory: map<string, seq<int>>, updated: seq<Sector>, n: nat, k: string)
    requires n <= |updated|
    requires k in priceHistory && k !in Names(updated, n)
    ensures k in AppendAll(priceHistory, updated, n)
    ensures AppendAll(priceHistory, updated, n)[k] == priceHistory[k]
  {
    if n > 0 {
      AppendAllOthers(priceHistory, updated, n - 1, k);
    }
  }

  /**
   * With distinct names each processed sector's history is its old one
   * (empty when it had none) extended by the new price.
   */
  lemma {:induction false} AppendAllAt(priceHistory: map<string, seq<int>>, updated: seq<Sector>, n: nat, i: nat)
    requires i < n <= |updated|
    requires DistinctNames(updated)
    ensures updated[i].name in AppendAll(priceHistory, updated, n)
    ensures AppendAll(priceHistory, updated, n)[updated[i].name]
            == BoundedAppend(PriorHistory(priceHistory, updated[i].name), updated[i].price)
  {
    var s := updated[n - 1];
    if i < n - 1 {
      AppendAllAt(priceHistory, updated, n - 1, i);
      assert updated[i].name != s.name;
    } else {
      var before := AppendAll(priceHistory, updated, n - 1);
      NameFresh(updated, n - 1);
      AppendAllKeys(priceHistory, updated, n - 1, s.name);
      if s.name in priceHistory {
        AppendAllOthers(priceHistory, updated, n - 1, s.name);
      }
      assert PriorHistory(before, s.name) == PriorHistory(priceHistory, s.name);
    }
  }

  /**
   * The whole history step with distinct names: the keys gain the roster's
   * names, every roster sector's history is its old one bounded-appended with
   * its new price (so it tracks that price), and every other key is untouched.
   */
  lemma AppendAllWhole(priceHistory: map<string, seq<int>>, updated: seq<Sector>)
    requires DistinctNames(updated)
    requires forall i :: 0 <= i < |updated| ==> updated[i].price >= PRICE_FLOOR
    ensures var h := AppendAll(priceHistory, updated, |updated|);
            && h.Keys == priceHistory.Keys + NameSet(updated)
            && (forall k :: k in priceHistory && k !in NameSet(updated) ==> k in h && h[k] == priceHistory[k])
            && (forall i :: 0 <= i < |updated| ==>
                  && updated[i].name in h
                  && h[updated[i].name] == BoundedAppend(PriorHistory(priceHistory, updated[i].name), updated[i].price)
                  && Tracked(updated[i], h))
  {
    var h := AppendAll(priceHistory, updated, |updated|);
    forall k | k in priceHistory && k !in NameSet(updated)
      ensures k in h && h[k] == priceHistory[k]
    {
      AppendAllOthers(priceHistory, updated, |updated|, k);
    }
    forall k ensures k in h <==> k in priceHistory || k in NameSet(updated) {
      AppendAllKeys(priceHistory, updated, |updated|, k);
    }
    forall i | 0 <= i < |updated|
      ensures updated[i].name in h
      ensures h[updated[i].name] == BoundedAppend(PriorHistory(priceHistory, updated[i].name), updated[i].price)
      ensures Tracked(updated[i], h)
    {
      AppendAllAt(priceHistory, updated, |updated|, i);
    }
  }

  /** The history step of a turn: the `forEach` over the updated sectors. */
  method AppendPrices(priceHistory: map<string, seq<int>>, updated: seq<Sector>)
    returns (updatedHistory: map<string, seq<int>>)
    ensures updatedHistory == AppendAll(priceHistory, updated, |updated|)
  {
    updatedHistory := priceHistory;
    for i := 0 to |updated|
      invariant updatedHistory == AppendAll(priceHistory, updated, i)
    {
      var s := updated[i];
      var prev := PriorHistory(updatedHistory, s.name);
      updatedHistory := updatedHistory[s.name := BoundedAppend(prev, s.price)];
    }
  }

  /**
   * The sector map and the history step of a turn on values: the roster
   * evolved in order, then each new price appended to its sector's history.
   * Distinct names survive, and every sector tracks its new history.
   */
  method Turn(roster: seq<Sector>, priceHistory: map<string, seq<int>>, cfg: Config,
              sel: Selection, sectorDraws: seq<SectorDraw>)
    returns (updated: seq<Sector>, updatedHistory: map<string, seq<int>>)
    requires DistinctNames(roster)
    requires |sectorDraws| == |roster|
    requires ValidDraws(sectorDraws)
    ensures updated == EvolveAll(roster, priceHistory, cfg, sel, sectorDraws, |roster|)
    ensures updatedHistory == AppendAll(priceHistory, updated, |updated|)
    ensures DistinctNames(updated)
    ensures forall i :: 0 <= i < |updated| ==> Tracked(updated[i], updatedHistory)
  {
    updated := EvolveSectors(roster, priceHistory, cfg, sel, sectorDraws);
    EvolveAllAt(roster, priceHistory, cfg, sel, sectorDraws, |roster|);
    assert DistinctNames(updated) by {
      assert forall i :: 0 <= i < |updated| ==> updated[i].name == roster[i].name;
    }
    updatedHistory := AppendPrices(priceHistory, updated);
    AppendAllWhole(priceHistory, updated);
  }

  class Market {
    var sectors: seq<Sector>
    var history: map<string, seq<int>>
    var eventLog: seq<LogEntry>
    var cash: int
    var holdings: seq<Holding>

    ghost predicate Valid()
      reads this
    {
      && DistinctNames(sectors)
      && (forall i :: 0 <= i < |sectors| ==> Tracked(sectors[i], history))
      && cash >= 0
      && WellFormed(holdings)
    }

    /** The state after the start-up effect: the picked sectors at 100, each with history [100]. */
    constructor (picks: seq<nat>)
      requires ValidPicks(picks)
      ensures Valid()
      ensures |sectors| == SAMPLE_SIZE
      ensures forall i :: 0 <= i < SAMPLE_SIZE ==>
                sectors[i] == Sector(SECTOR_CATALOG[picks[i]].name, SECTOR_CATALOG[picks[i]].volatility, BASELINE, NoSignal)
      ensures history.Keys == NameSet(sectors)
      ensures forall k :: k in history ==> history[k] == [BASELINE]
      ensures eventLog == [] && cash == INITIAL_CASH && holdings == []
    {
      var initial := seq(|picks|, i requires 0 <= i < |picks| =>
        Sector(SECTOR_CATALOG[picks[i]].name, SECTOR_CATALOG[picks[i]].volatility, BASELINE, NoSignal));
      CatalogNamesDistinct();
      forall i | 0 <= i < |initial| ensures initial[i].name in NameSet(initial) {
        NamesMember(initial, |initial|, initial[i].name);
      }
      sectors := initial;
      history := map n | n in NameSet(initial) :: [BASELINE];
      eventLog := [];
      cash := INITIAL_CASH;
      holdings := [];
    }

    /** totalHoldingsValue: the holdings at the live prices. */
    function TotalHoldingsValue(): (v: int)
      reads this
      requires Valid()
      ensures v >= 0
    {
      assert forall s :: s in sectors ==> s.price >= PRICE_FLOOR by {
        forall s | s in sectors ensures s.price >= PRICE_FLOOR {
          var i :| 0 <= i < |sectors| && sectors[i] == s;
          assert Tracked(sectors[i], history);
        }
      }
      HoldingsValueNonNegative(holdings, sectors);
      HoldingsValue(holdings, sectors)
    }

    /** totalNetWorth: cash plus the holdings' value. */
    function TotalNetWorth(): (w: int)
      reads this
      requires Valid()
      ensures w >= cash
    {
      cash + TotalHoldingsValue()
    }

    /**
     * One turn (simulateMarket). The event is chosen once; every sector is
     * evolved from the state at the start of the turn; each history gets the
     * new price; one log entry is prepended. Cash and holdings are untouched.
     */
    method SimulateMarket(cfg: Config, eventDraws: EventDraws, sectorDraws: seq<SectorDraw>)
      requires Valid()
      requires ValidEventDraws(eventDraws)
      requires |sectorDraws| == |sectors|
      requires ValidDraws(sectorDraws)
      modifies this
      ensures Valid()
      ensures sectors == EvolveAll(old(sectors), old(history), cfg, SelectEvent(eventDraws, cfg.crises, cfg.news),
                                   sectorDraws, |old(sectors)|)
      ensures history == AppendAll(old(history), sectors, |sectors|)
      ensures eventLog == [LogEntryFor(SelectEvent(eventDraws, cfg.crises, cfg.news))] + old(eventLog)
      ensures cash == old(cash) && holdings == old(holdings)
    {
      var sel := SelectEvent(eventDraws, cfg.crises, cfg.news);
      var updated, updatedHistory := Turn(sectors, history, cfg, sel, sectorDraws);
      sectors := updated;
      history := updatedHistory;
      eventLog := [LogEntryFor(sel)] + eventLog;
    }

    /** buyStock: one share at the live price, when the sector is live and cash covers the price. */
    method BuyStock(name: string)
      requires Valid()
      modifies this
      ensures Valid()
      ensures sectors == old(sectors) && history == old(history) && eventLog == old(eventLog)
      ensures Find(sectors, name).None? || old(cash) < Find(sectors, name).value.price ==>
                cash == old(cash) && holdings == old(holdings)
      ensures Find(sectors, name).Some? && old(cash) >= Find(sectors, name).value.price ==>
                cash == old(cash) - Find(sectors, name).value.price &&
                Qty(holdings, name) == Qty(old(holdings), name) + 1
      ensures forall n :: n != name ==> Qty(holdings, n) == Qty(old(holdings), n)
      ensures TotalNetWorth() == old(TotalNetWorth())
    {
      var sector := Find(sectors, name);
      if sector.None? || cash < sector.value.price {
        return;
      }
      TradeKeepsNetWorth(holdings, sectors, cash, name, sector.value);
      QtyNonNegative(holdings, name);
      SetQtyWellFormed(holdings, name, Qty(holdings, name) + 1);
      cash := cash - sector.value.price;
      holdings := SetQty(holdings, name, Qty(holdings, name) + 1);
    }

    /** sellStock: one share back at the live price, when the sector is live and a share is held. */
    method SellStock(name: string)
      requires Valid()
      modifies this
      ensures Valid()
      ensures sectors == old(sectors) && history == old(history) && eventLog == old(eventLog)
      ensures Find(sectors, name).None? || Qty(old(holdings), name) <= 0 ==>
                cash == old(cash) && holdings == old(holdings)
      ensures Find(sectors, name).Some? && Qty(old(holdings), name) > 0 ==>
                cash == old(cash) + Find(sectors, name).value.price &&
                Qty(holdings, name) == Qty(old(holdings), name) - 1
      ensures forall n :: n != name ==> Qty(holdings, n) == Qty(old(holdings), n)
      ensures TotalNetWorth() == old(TotalNetWorth())
    {
      var sector := Find(sectors, name);
      if sector.None? || Qty(holdings, name) <= 0 {
        return;
      }
      TradeKeepsNetWorth(holdings, sectors, cash, name, sector.value);
      SetQtyWellFormed(holdings, name, Qty(holdings, name) - 1);
      cash := cash + sector.value.price;
      holdings := SetQty(holdings, name, Qty(holdings, name) - 1);
    }
  }
}
