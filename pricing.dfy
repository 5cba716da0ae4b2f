/**
 * The per-sector price evolution of one turn: volatility ranges, the
 * influence score over the relation graph, the signed fluctuation, event
 * impact, rounding with the price floor, and the momentum label.
 */
module Pricing {
  import opened Options
  import opened Trend
  import opened Events

  datatype Volatility = Low | Medium | High

  /** An inclusive percentage range for a volatility class. */
  datatype Range = Range(min: int, max: int)

  datatype Momentum = Bullish | Bearish

  /** The trend fields a turn writes on a sector; a freshly created sector has none. */
  datatype Signal = NoSignal | Reading(shortEma: real, longEma: real, momentum: Momentum)

  datatype Sector = Sector(name: string, volatility: Volatility, price: int, signal: Signal)

  /** One entry of a sector's relation table: a related sector and a signed direction. */
  datatype Relation = Relation(related: string, direction: real)

  /** The two per-sector draws: the fluctuation magnitude and the direction coin. */
  datatype SectorDraw = SectorDraw(magnitude: real, direction: real)

  const BASELINE: int := 100
  const PRICE_FLOOR: int := 5
  const INFLUENCE_WEIGHT: real := 0.02
  const BULLISH_PROB: real := 0.65
  const BEARISH_PROB: real := 0.45

  predicate ValidSectorDraw(d: SectorDraw)
  {
    IsUnitDraw(d.magnitude) && IsUnitDraw(d.direction)
  }

  /** The volatilityEffect table. */
  function VolatilityRange(v: Volatility): (r: Range)
    ensures 0 < r.min < r.max
  {
    match v
    case Low => Range(2, 5)
    case Medium => Range(5, 15)
    case High => Range(10, 25)
  }

  /** `sectors.find(s => s.name === name)`: the first sector of that name. */
  function Find(roster: seq<Sector>, name: string): (r: Option<Sector>)
    ensures r.Some? ==> r.value in roster && r.value.name == name
    ensures r.None? <==> forall s :: s in roster ==> s.name != name
  {
    if |roster| == 0 then None
    else if roster[0].name == name then Some(roster[0])
    else Find(roster[1..], name)
  }

  /** Whether the related sector is live and priced strictly above the baseline of 100. */
  predicate Elevated(rel: Relation, roster: seq<Sector>)
  {
    Find(roster, rel.related).Some? && Find(roster, rel.related).value.price > BASELINE
  }

  /** What one relation adds to the influence score. */
  function Contribution(rel: Relation, roster: seq<Sector>): real
  {
    if Elevated(rel, roster) then rel.direction * INFLUENCE_WEIGHT else 0.0
  }

  /** The influence score: the contributions of the relation entries, in order. */
  function InfluenceSum(rels: seq<Relation>, roster: seq<Sector>): real
    decreases |rels|
  {
    if |rels| == 0 then 0.0
    else InfluenceSum(rels[..|rels| - 1], roster) + Contribution(rels[|rels| - 1], roster)
  }

  /** The relation entries whose related sector is elevated, in order. */
  function ElevatedRelations(rels: seq<Relation>, roster: seq<Sector>): (r: seq<Relation>)
    ensures forall x :: x in r ==> x in rels && Elevated(x, roster)
    ensures forall x :: x in rels && Elevated(x, roster) ==> x in r
    decreases |rels|
  {
    if |rels| == 0 then []
    else
      var init := ElevatedRelations(rels[..|rels| - 1], roster);
      var last := rels[|rels| - 1];
      assert rels == rels[..|rels| - 1] + [last];
      if Elevated(last, roster) then init + [last] else init
  }

  /** The sum of the directions of some relation entries. */
  function DirectionTotal(rels: seq<Relation>): real
    decreases |rels|
  {
    if |rels| == 0 then 0.0
    else DirectionTotal(rels[..|rels| - 1]) + rels[|rels| - 1].direction
  }

  lemma DirectionTotalAppend(rels: seq<Relation>, x: Relation)
    ensures DirectionTotal(rels + [x]) == DirectionTotal(rels) + x.direction
  {
    assert (rels + [x])[..|rels|] == rels;
  }

  /** The score is 0.02 times the total direction of exactly the elevated related sectors. */
  lemma {:induction false} InfluenceIsElevatedTotal(rels: seq<Relation>, roster: seq<Sector>)
    ensures InfluenceSum(rels, roster) == INFLUENCE_WEIGHT * DirectionTotal(ElevatedRelations(rels, roster))
    decreases |rels|
  {
    if |rels| > 0 {
      var init, last := rels[..|rels| - 1], rels[|rels| - 1];
      InfluenceIsElevatedTotal(init, roster);
      if Elevated(last, roster) {
        DirectionTotalAppend(ElevatedRelations(init, roster), last);
      }
    }
  }

  /** No related sector live above the baseline: the score is exactly 0. */
  lemma {:induction false} InfluenceZeroWhenNoneElevated(rels: seq<Relation>, roster: seq<Sector>)
    requires forall x :: x in rels ==> !Elevated(x, roster)
    ensures InfluenceSum(rels, roster) == 0.0
    decreases |rels|
  {
    if |rels| > 0 {
      var init := rels[..|rels| - 1];
      assert forall x :: x in init ==> x in rels;
      InfluenceZeroWhenNoneElevated(init, roster);
      assert rels[|rels| - 1] in rels;
    }
  }

  /** The imperative accumulation of the score over the relation entries. */
  method InfluenceScore(rels: seq<Relation>, roster: seq<Sector>) returns (score: real)
    ensures score == InfluenceSum(rels, roster)
  {
    score := 0.0;
    for i := 0 to |rels|
      invariant score == InfluenceSum(rels[..i], roster)
    {
      var rel := rels[i];
      var related := Find(roster, rel.related);
      if related.Some? && related.value.price > BASELINE {
        score := score + rel.direction * INFLUENCE_WEIGHT;
      }
      assert rels[..i + 1][..i] == rels[..i];
    }
    assert rels[..|rels|] == rels;
  }

  /** `(random * (max - min) + min) / 100`: a magnitude within the class's range. */
  function Fluctuation(v: Volatility, magnitude: real): (f: real)
    requires IsUnitDraw(magnitude)
    ensures VolatilityRange(v).min as real / 100.0 <= f < VolatilityRange(v).max as real / 100.0
  {
    var r := VolatilityRange(v);
    assert magnitude * (r.max - r.min) as real < (r.max - r.min) as real by {
      assert (1.0 - magnitude) * (r.max - r.min) as real > 0.0;
    }
    (magnitude * (r.max - r.min) as real + r.min as real) / 100.0
  }

  /** The upward probability: 0.65 when the trend test holds, else 0.45. */
  function BaseProb(shortEma: real, longEma: real): real
  {
    if shortEma > longEma then BULLISH_PROB else BEARISH_PROB
  }

  /** The momentum label, by the same test. */
  function MomentumOf(shortEma: real, longEma: real): Momentum
  {
    if shortEma > longEma then Bullish else Bearish
  }

  /** Momentum is Bullish exactly when the upward probability is 0.65. */
  lemma MomentumMatchesBaseProb(shortEma: real, longEma: real)
    ensures MomentumOf(shortEma, longEma) == Bullish <==> shortEma > longEma
    ensures BaseProb(shortEma, longEma) == BULLISH_PROB <==> shortEma > longEma
    ensures MomentumOf(shortEma, longEma) == Bullish <==> BaseProb(shortEma, longEma) == BULLISH_PROB
  {
  }

  /** The fluctuation with a sign: positive exactly when the direction draw is below baseProb. */
  function SignedFluctuation(v: Volatility, draw: SectorDraw, baseProb: real): (d: real)
    requires ValidSectorDraw(draw)
    ensures d == Fluctuation(v, draw.magnitude) || d == -Fluctuation(v, draw.magnitude)
    ensures d > 0.0 <==> draw.direction < baseProb
    ensures VolatilityRange(v).min as real / 100.0 <= (if d < 0.0 then -d else d) < VolatilityRange(v).max as real / 100.0
  {
    var f := Fluctuation(v, draw.magnitude);
    if draw.direction < baseProb then f else -f
  }

  /** The delta after the crisis and the news checks, each adding its impact when it lists the sector. */
  function Delta(signed: real, name: string, sel: Selection): real
  {
    var afterCrisis :=
      if sel.crisis.Some? && name in sel.crisis.value.affects then signed + sel.crisis.value.impact
      else signed;
    if sel.news.Some? && name in sel.news.value.affects then afterCrisis + sel.news.value.impact
    else afterCrisis
  }

  /**
   * With at most one event active, the delta is the signed fluctuation plus
   * exactly that event's impact when it lists the sector, and nothing otherwise.
   */
  lemma DeltaFromActiveEvent(signed: real, name: string, sel: Selection)
    requires AtMostOne(sel)
    ensures Listed(sel, name) ==> Delta(signed, name, sel) == signed + Active(sel).value.impact
    ensures !Listed(sel, name) ==> Delta(signed, name, sel) == signed
  {
  }

  /** `Math.round`: half-way cases go up. */
  function Round(x: real): (n: int)
    ensures x - 0.5 < n as real <= x + 0.5
  {
    (x + 0.5).Floor
  }

  /** `Math.max(5, Math.round(price * (1 + delta)))`. */
  function NewPrice(price: int, delta: real): (r: int)
    ensures r >= PRICE_FLOOR
  {
    var rounded := Round(price as real * (1.0 + delta));
    if rounded < PRICE_FLOOR then PRICE_FLOOR else rounded
  }

  /**
   * Above the floor the new price is within half a unit of price * (1 + delta),
   * and it is above the floor whenever that product reaches 5.5.
   */
  lemma NewPriceRounds(price: int, delta: real)
    ensures var r, x := NewPrice(price, delta), price as real * (1.0 + delta);
            (r > PRICE_FLOOR ==> x - 0.5 < r as real <= x + 0.5) &&
            (x >= PRICE_FLOOR as real + 0.5 ==> r > PRICE_FLOOR)
  {
  }

  /** When price * (1 + delta) is a whole number n, the new price is max(5, n). */
  lemma NewPriceExact(price: int, delta: real, n: int)
    requires price as real * (1.0 + delta) == n as real
    ensures NewPrice(price, delta) == if n < PRICE_FLOOR then PRICE_FLOOR else n
  {
  }

  /** For a non-negative price the update is monotone in delta. */
  lemma NewPriceMonotone(price: int, d1: real, d2: real)
    requires price >= 0
    requires d1 <= d2
    ensures NewPrice(price, d1) <= NewPrice(price, d2)
  {
    assert price as real * (1.0 + d1) <= price as real * (1.0 + d2) by {
      assert price as real * (d2 - d1) >= 0.0;
    }
  }

  /** The worked figures: +5% on 100 gives 105, a -50% delta on 100 gives 50, and -100% hits the floor. */
  lemma NewPriceExamples()
    ensures NewPrice(100, 0.05) == 105
    ensures NewPrice(100, -0.5) == 50
    ensures NewPrice(100, -1.0) == PRICE_FLOOR
  {
    NewPriceExact(100, 0.05, 105);
    NewPriceExact(100, -0.5, 50);
    NewPriceExact(100, -1.0, 0);
  }

  /**
   * The per-sector update of one turn (the callback of `sectors.map`): the
   * signed fluctuation, the active event's impact, the rounded price with its
   * floor, and the trend fields. The influence score is an argument because
   * the turn computes it here, but it does not enter the result.
   */
  function Evolve(s: Sector, shortEma: real, longEma: real, influenceScore: real,
                  sel: Selection, draw: SectorDraw): (r: Sector)
    requires ValidSectorDraw(draw)
    ensures r.name == s.name && r.volatility == s.volatility
    ensures r.price >= PRICE_FLOOR
  {
    var baseProb := BaseProb(shortEma, longEma);
    var signed := SignedFluctuation(s.volatility, draw, baseProb);
    var delta := Delta(signed, s.name, sel);
    s.(price := NewPrice(s.price, delta),
       signal := Reading(shortEma, longEma, MomentumOf(shortEma, longEma)))
  }

  /** The updated sector records both averages and is Bullish exactly when the short one is above the long one. */
  lemma EvolveSignal(s: Sector, shortEma: real, longEma: real, score: real, sel: Selection, draw: SectorDraw)
    requires ValidSectorDraw(draw)
    ensures var r := Evolve(s, shortEma, longEma, score, sel, draw);
            && r.signal.Reading? && r.signal.shortEma == shortEma && r.signal.longEma == longEma
            && (r.signal.momentum == Bullish <==> shortEma > longEma)
  {
  }

  /**
   * With at most one event active, the new price is the rounded, floored
   * result of the signed fluctuation plus that event's impact when it lists
   * the sector, and of the fluctuation alone otherwise.
   */
  lemma EvolvePrice(s: Sector, shortEma: real, longEma: real, score: real, sel: Selection, draw: SectorDraw)
    requires ValidSectorDraw(draw)
    requires AtMostOne(sel)
    ensures Evolve(s, shortEma, longEma, score, sel, draw).price
            == NewPrice(s.price, SignedFluctuation(s.volatility, draw, BaseProb(shortEma, longEma))
                                 + (if Listed(sel, s.name) then Active(sel).value.impact else 0.0))
  {
    DeltaFromActiveEvent(SignedFluctuation(s.volatility, draw, BaseProb(shortEma, longEma)), s.name, sel);
  }

  /** The influence score never affects the updated sector. */
  lemma EvolveIgnoresInfluence(s: Sector, shortEma: real, longEma: real, score1: real, score2: real,
                               sel: Selection, draw: SectorDraw)
    requires ValidSectorDraw(draw)
    ensures Evolve(s, shortEma, longEma, score1, sel, draw) == Evolve(s, shortEma, longEma, score2, sel, draw)
  {
  }

  /** A sector that no active event lists moves by its signed fluctuation alone. */
  lemma UnlistedMovesByFluctuation(s: Sector, shortEma: real, longEma: real, score: real,
                                   sel: Selection, draw: SectorDraw)
    requires ValidSectorDraw(draw)
    requires AtMostOne(sel) && !Listed(sel, s.name)
    ensures Evolve(s, shortEma, longEma, score, sel, draw).price
            == NewPrice(s.price, SignedFluctuation(s.volatility, draw, BaseProb(shortEma, longEma)))
  {
    EvolvePrice(s, shortEma, longEma, score, sel, draw);
  }
}
