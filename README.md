# Simulated market game: a verified model of the turn step and the ledger

The game holds eight sectors drawn from a catalog of 21, each with a name, a
volatility class and an integer price starting at 100. Each press of "Next
Turn" runs one market step:

- it picks at most one macro event, either market news or a crisis;
- it moves every sector's price by a random fluctuation whose sign is biased
  by a short/long exponential-moving-average trend test, plus the event's
  impact for the sectors the event lists;
- it rounds the price and floors it at 5;
- it appends the new price to a history that keeps at most ten entries;
- it prepends one line to the event log.

The player starts with 1000 in cash. They can buy or sell one share at a
time at the live price. The screen shows the holdings' value and the net
worth.

The model has seven modules, one per concern of `src/App.jsx`:

- `Trend` is the EMA (`calculateEMA`) and the trend test. The loop is an
  imperative method proved equal to a left-fold function.
- `History` is the bounded append `[...prev.slice(-9), price]` and its
  behaviour over many turns.
- `Events` is the news/crisis choice, the catalog pick and the log entry.
- `Pricing` is the per-sector update. It covers the volatility table, the
  influence score (an imperative accumulation proved equal to a sum), the
  signed fluctuation, the event impact, the rounding with its floor and the
  momentum label.
- `Portfolio` is the holdings object, kept as an association list in key
  insertion order, and its value at the live prices.
- `Simulation` is the game session. `Simulation.Market` is a class whose
  fields are the React state cells: sectors, price history, event log, cash
  and holdings. Its methods are the turn step and the two trades, each
  proved against specification functions. Its invariant `Valid` states:
  - sector names are distinct;
  - every sector's price is at least 5 and is the last entry of its history
    of 1 to 10 entries;
  - cash is non-negative;
  - holdings have unique keys and no negative count.

Every `Math.random()` draw is a parameter of type `real` in `[0, 1)`:
- the news trigger, the crisis trigger and the two catalog picks
  (`Events.EventDraws`);
- per sector, the fluctuation magnitude, then the direction coin
  (`Pricing.SectorDraw`).

The three JSON tables (the relation graph, the crisis catalog and the news
catalog) are one parameter, `Simulation.Config`. The start-up shuffle is
replaced by its outcome: the constructor takes eight distinct catalog
positions.

A property of the trend test that the proofs bring out:
- While a history has 3 to 6 entries, the 7-period average falls back to
  the latest price.
- So the test reports "trending up" exactly when the latest price is below
  the mean of the two before it (`Trend.MidHistoryTrend`).
- For instance, [100, 110, 90] counts as trending up and [100, 110, 120]
  does not.

The model keeps this behaviour as written.

## Model

| member | source | states |
|---|---|---|
| Trend.LastN | src/App.jsx:77-78 | `slice(-n)` keeps min(n, length) entries |
| Trend.LastNIsSuffix | src/App.jsx:77-78 | the kept window is the trailing part of the history, in order |
| Trend.Smoothing | src/App.jsx:14 | the smoothing factor 2/(period+1) lies in (0, 1] for every period of at least 1 |
| Trend.CalculateEMA | src/App.jsx:12-20 | the loop returns 0 for an empty sequence and the last price for one shorter than the period; otherwise it returns the left fold seeded with prices[0] under ema = p*k + ema*(1-k) |
| Trend.EmaFoldWithin | src/App.jsx:15-18 | each fold step is a convex combination, so the running average stays between the smallest and largest price folded |
| Trend.EmaWithinRange | src/App.jsx:12-20 | the average of a non-empty window never leaves the range of its prices |
| Trend.FlatHistoryNotTrending | src/App.jsx:76-80 | a history of one repeated price, such as the initial [100], gives both averages equal to that price and no upward trend |
| Trend.ShortHistoryNotTrending | src/App.jsx:76-80 | with fewer than three prices both averages coincide, so the trend test fails |
| Trend.MidHistoryTrend | src/App.jsx:76-80 | with 3 to 6 prices the long average is the last price; the test holds iff the two earlier of the last three prices sum to more than twice the last |
| History.BoundedAppend | src/App.jsx:117 | the new history has min(10, old length + 1) entries and ends with the new price |
| History.BoundedAppendKeepsNewest | src/App.jsx:117 | before the new price stand the old history's newest (up to) nine entries in their original order |
| History.BoundedAppendSuffix | src/App.jsx:117 | one append yields a trailing part of the old history followed by the new price |
| History.ReplayBounded | src/App.jsx:114-118 | over any number of turns the history has min(10, start + turns) entries, and these are the newest of all prices recorded, oldest dropped first |
| History.ReplayFromInitial | src/App.jsx:114-118 | from the initial one-entry history, after n turns there are min(10, n+1) entries ending with the latest price |
| Events.PickIndex | src/App.jsx:69-71 | floor(roll * n) with roll in [0, 1) is a valid index of an n-entry catalog |
| Events.Pick | src/App.jsx:69-71 | the pick yields an event iff the catalog is non-empty, and that event belongs to the catalog |
| Events.SelectEvent | src/App.jsx:62-72 | never both a crisis and news; news iff its draw is below 0.4 and the catalog is non-empty; a crisis iff the news draw failed, the crisis draw is below 0.25 and the catalog is non-empty; each chosen event comes from its own catalog |
| Events.LogEntryFor | src/App.jsx:123-135 | the entry is the crisis entry iff a crisis is set, the news entry iff only news is set, and the general entry iff no event is active; a non-general entry carries the active event |
| Pricing.VolatilityRange | src/App.jsx:6-10 | every class has a positive range with min < max (2-5, 5-15, 10-25) |
| Pricing.Find | src/App.jsx:86 | a found sector is in the roster and has the name; nothing is found iff no sector has that name |
| Pricing.ElevatedRelations | src/App.jsx:87 | exactly the relation entries whose sector is live and priced above 100 are kept |
| Pricing.InfluenceIsElevatedTotal | src/App.jsx:83-90 | the influence score is 0.02 times the sum of directions over exactly the elevated related sectors |
| Pricing.InfluenceZeroWhenNoneElevated | src/App.jsx:83-90 | when no related sector is live above 100 the score is 0 |
| Pricing.InfluenceScore | src/App.jsx:84-90 | the accumulating loop computes the influence sum over the relation entries |
| Pricing.Fluctuation | src/App.jsx:92 | the magnitude lies in [min/100, max/100) of the sector's volatility range |
| Pricing.MomentumMatchesBaseProb | src/App.jsx:80-111 | the momentum is Bullish iff short EMA > long EMA iff the upward probability is 0.65 (else 0.45) |
| Pricing.SignedFluctuation | src/App.jsx:93 | the signed move is plus or minus the magnitude, positive exactly when the direction draw is below the upward probability, and its size stays in the volatility range |
| Pricing.DeltaFromActiveEvent | src/App.jsx:95-101 | with at most one event active, the delta is the signed move plus that event's impact when it lists the sector, and the signed move otherwise |
| Pricing.Round | src/App.jsx:103 | the rounded value lies in (x - 0.5, x + 0.5], so halves go up as with Math.round |
| Pricing.NewPrice | src/App.jsx:103 | the new price is never below 5 |
| Pricing.NewPriceRounds | src/App.jsx:103 | above the floor the new price is within half a unit of price*(1+delta), and it is above the floor whenever that product reaches 5.5 |
| Pricing.NewPriceExact | src/App.jsx:103 | when price*(1+delta) is a whole number n the new price is max(5, n) |
| Pricing.NewPriceMonotone | src/App.jsx:103 | for a non-negative price a larger delta never gives a lower new price |
| Pricing.NewPriceExamples | src/App.jsx:103 | 100 with +5% gives 105, with -50% gives 50, and with -100% stops at the floor of 5 |
| Pricing.Evolve | src/App.jsx:92-107 | the updated sector keeps its name and volatility and has a price of at least 5 |
| Pricing.EvolveSignal | src/App.jsx:105-111 | the updated sector records both averages and is Bullish exactly when short > long |
| Pricing.EvolvePrice | src/App.jsx:92-103 | the new price is the rounded, floored result of the signed move plus the active event's impact only when the event lists the sector |
| Pricing.EvolveIgnoresInfluence | src/App.jsx:83-103 | the influence score never changes the updated sector |
| Pricing.UnlistedMovesByFluctuation | src/App.jsx:95-103 | a sector no active event lists moves by its signed fluctuation alone |
| Portfolio.SetQty | src/App.jsx:144-147 | writing a count sets that key's count and leaves every other key's count unchanged |
| Portfolio.QtyNonNegative | src/App.jsx:146 | with no negative entry every count read (a missing key reads as 0) is non-negative |
| Portfolio.SetQtyEntries | src/App.jsx:144-147 | writing a count adds no entry other than the one written |
| Portfolio.SetQtyWellFormed | src/App.jsx:144-147 | writing a non-negative count keeps keys unique and counts non-negative |
| Portfolio.HoldingsValueNonNegative | src/App.jsx:164-167 | non-negative counts at prices of at least 5 are worth a non-negative total |
| Portfolio.SetQtyValue | src/App.jsx:164-167 | changing a live sector's count changes the held value by exactly its price times the change |
| Portfolio.TradeKeepsNetWorth | src/App.jsx:138-169 | buying or selling one share at the live price leaves cash plus held value unchanged |
| Simulation.CatalogNamesDistinct | src/App.jsx:28-50 | the 21 catalog names are pairwise distinct |
| Simulation.EvolveInTurn | src/App.jsx:74-112 | a sector's turn update keeps its name and volatility and floors its price at 5 |
| Simulation.EvolveInTurnMomentum | src/App.jsx:76-111 | a sector's turn update is labelled Bullish exactly when its history (or [price] when it has none) passes the trend test |
| Simulation.EvolveAllAt | src/App.jsx:74-112 | the mapped roster has the same length, and entry i is sector i evolved with its own draw from the start-of-turn state |
| Simulation.EvolveSectors | src/App.jsx:74-112 | the loop over the roster computes the map of every sector's turn update, in order |
| Simulation.AppendAllKeys | src/App.jsx:114-118 | after the history step the keys are the old keys plus the roster's names |
| Simulation.AppendAllOthers | src/App.jsx:114-118 | a key of no roster sector keeps its old history |
| Simulation.AppendAllAt | src/App.jsx:114-118 | with distinct names, each roster sector's history is its old one (empty when missing) bounded-appended with its new price |
| Simulation.AppendPrices | src/App.jsx:114-118 | the loop over the updated sectors computes the history step |
| Simulation.AppendAllWhole | src/App.jsx:114-118 | with distinct names the whole step adds exactly the roster's names as keys, leaves other keys untouched, and bounded-appends each sector's new price so that it is the last of 1 to 10 entries |
| Simulation.Turn | src/App.jsx:74-118 | the sector map then the history step, as the two specification functions; names stay distinct and every sector ends as the newest entry of its history |
| Simulation.Market.constructor | src/App.jsx:52-59 | eight picked catalog sectors at price 100, each with history [100] and no other key, an empty log, cash 1000, no holdings, and the invariant established |
| Simulation.Market.TotalHoldingsValue | src/App.jsx:164-167 | the holdings' value at the live prices is non-negative |
| Simulation.Market.TotalNetWorth | src/App.jsx:169 | net worth is cash plus holdings' value, so never below cash |
| Simulation.Market.SimulateMarket | src/App.jsx:61-136 | the turn keeps the invariant; the new sectors are the in-order map of every sector's turn update from the start-of-turn sectors and histories under the single event choice; the new histories are the history step over them; exactly one log entry, for that choice, is prepended; cash and holdings are unchanged |
| Simulation.Market.BuyStock | src/App.jsx:138-149 | no change when the sector is missing or cash is below its price; otherwise cash drops by the price and that count rises by one; other counts, sectors, history and log are unchanged; net worth is unchanged and the invariant, including cash >= 0, is kept |
| Simulation.Market.SellStock | src/App.jsx:151-162 | no change when the sector is missing or no share is held; otherwise cash rises by the price and that count falls by one; other counts, sectors, history and log are unchanged; net worth is unchanged and the invariant is kept |

## Left out

- React rendering, `useState`/`useEffect` and the JSX markup are not modelled. The state cells are the fields of `Simulation.Market`, and each handler is one method call.
- A React handler reads the state rendered before its updater runs: `buyStock` tests `playerPortfolio.cash` but subtracts from `prev.cash`. The model runs each handler on the current state, one at a time, so the batching of several clicks within one render is not modelled.
- `Math.random` is not modelled. Every draw is a parameter in `[0, 1)`, and the number of draws a turn consumes is not modelled. The crisis draw is supplied even when the short-circuit in the source would skip it.
- The shuffle-based sampling of eight sectors is not modelled. The constructor takes the eight distinct catalog positions it produced.
- The JSON catalogs `sectorRelations`, `crisisEvents` and `marketEvents` are not part of this model. They are the `Config` parameter. A relation table is a sequence of (related sector, direction) entries in the object's key order.
- Empty event catalogs are allowed, because the code tolerates them: indexing an empty catalog gives `undefined`, so no event is active and the log says "General market fluctuation". The model follows the code here rather than assuming a non-empty catalog.
- IEEE-754 floating point is not modelled. The averages, directions, impacts and delta are exact `real`s, and `Math.round` is `Floor(x + 0.5)`.
- The `toFixed(2)` strings of the averages, and the emoji and percentage text of the momentum label and the log lines, are not modelled. The averages are kept as reals, the momentum as `Bullish`/`Bearish`, and a log entry as `CrisisLog`/`NewsLog`/`GeneralLog`, each carrying its event.
- The display-only parts are not modelled: the five-entry cap on the shown log, the price arrow and the listing of holdings.
- Trend.CalculateEMA requires period >= 1. The source is only called with 3 and 7, but a period of 0 on an empty sequence would read `prices[0]` and return `undefined`.
- Trend.LastN requires n > 0. `slice(-0)` returns the whole array, and the source only uses 3, 7 and 9.
- The influence score is computed each turn, as in the source, but it never enters the new price. `Pricing.EvolveIgnoresInfluence` states this.
