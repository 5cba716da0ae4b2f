/**
 * Scripted macro events: a market-news catalog and a crisis catalog, the
 * once-per-turn selection between them, and the log entry that reports it.
 */
module Events {
  import opened Options

  /** A catalog entry: its name, the sectors it lists and the fraction it adds to their delta. */
  datatype Event = Event(name: string, affects: seq<string>, impact: real)

  /** The two variables of the turn, `crisis` and `marketEvent`; undefined is None. */
  datatype Selection = Selection(crisis: Option<Event>, news: Option<Event>)

  /** The four random draws the selection may consume, each in [0, 1). */
  datatype EventDraws = EventDraws(newsRoll: real, crisisRoll: real, newsPick: real, crisisPick: real)

  /** One turn's report, newest first in the log. */
  datatype LogEntry = CrisisLog(crisis: Event) | NewsLog(news: Event) | GeneralLog

  const NEWS_CHANCE: real := 0.4
  const CRISIS_CHANCE: real := 0.25

  /** A value Math.random() can return. */
  predicate IsUnitDraw(x: real)
  {
    0.0 <= x < 1.0
  }

  predicate ValidEventDraws(d: EventDraws)
  {
    IsUnitDraw(d.newsRoll) && IsUnitDraw(d.crisisRoll) && IsUnitDraw(d.newsPick) && IsUnitDraw(d.crisisPick)
  }

  /** `Math.floor(roll * n)`: a uniform index into a catalog of n entries. */
  function PickIndex(roll: real, n: nat): (i: int)
    requires IsUnitDraw(roll)
    requires n > 0
    ensures 0 <= i < n
  {
    assert roll * n as real < n as real by {
      assert (1.0 - roll) * n as real > 0.0;
    }
    (roll * n as real).Floor
  }

  /** `catalog[Math.floor(roll * catalog.length)]`; an empty catalog yields undefined. */
  function Pick(catalog: seq<Event>, roll: real): (r: Option<Event>)
    requires IsUnitDraw(roll)
    ensures r.Some? <==> |catalog| > 0
    ensures r.Some? ==> r.value in catalog
  {
    if |catalog| == 0 then None else Some(catalog[PickIndex(roll, |catalog|)])
  }

  /**
   * The turn's event choice: news when its draw is below 0.4; only when that
   * fails, a crisis when the second draw is below 0.25; otherwise nothing.
   */
  function SelectEvent(d: EventDraws, crises: seq<Event>, news: seq<Event>): (sel: Selection)
    requires ValidEventDraws(d)
    ensures !(sel.crisis.Some? && sel.news.Some?)
    ensures sel.news.Some? <==> d.newsRoll < NEWS_CHANCE && |news| > 0
    ensures sel.crisis.Some? <==> !(d.newsRoll < NEWS_CHANCE) && d.crisisRoll < CRISIS_CHANCE && |crises| > 0
    ensures sel.news.Some? ==> sel.news.value in news
    ensures sel.crisis.Some? ==> sel.crisis.value in crises
  {
    var triggerNews := d.newsRoll < NEWS_CHANCE;
    var triggerCrisis := !triggerNews && d.crisisRoll < CRISIS_CHANCE;
    if triggerNews then Selection(None, Pick(news, d.newsPick))
    else if triggerCrisis then Selection(Pick(crises, d.crisisPick), None)
    else Selection(None, None)
  }

  /** At most one of the two variables holds an event. */
  predicate AtMostOne(sel: Selection)
  {
    !(sel.crisis.Some? && sel.news.Some?)
  }

  /** The single event active this turn, if any. */
  function Active(sel: Selection): Option<Event>
  {
    if sel.crisis.Some? then sel.crisis else sel.news
  }

  /** Whether the active event lists the sector. */
  predicate Listed(sel: Selection, name: string)
  {
    Active(sel).Some? && name in Active(sel).value.affects
  }

  /** The log line of the turn, chosen in the order crisis, news, general. */
  function LogEntryFor(sel: Selection): (e: LogEntry)
    ensures e.CrisisLog? <==> sel.crisis.Some?
    ensures e.NewsLog? <==> sel.crisis.None? && sel.news.Some?
    ensures e.GeneralLog? <==> Active(sel).None?
    ensures !e.GeneralLog? ==> Active(sel) == Some(if e.CrisisLog? then e.crisis else e.news)
  {
    if sel.crisis.Some? then CrisisLog(sel.crisis.value)
    else if sel.news.Some? then NewsLog(sel.news.value)
    else GeneralLog
  }
}
