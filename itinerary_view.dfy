/**
 * The itinerary page: the local currency picked from the first stop's
 * country, the estimated trip budget scaled by the party size, and which of
 * the page's three screens is shown.
 */
module ItineraryView {
  import opened Wrappers
  import opened TripContext
  import RouteSequencer

  datatype Currency = Currency(code: string, symbol: string)

  /** The page's initial currency, the UAE dirham. */
  const DefaultCurrency := Currency("AED", "\U{062F}.\U{0625}")

  /** The currency shown for a country the table does not know. */
  const FallbackCurrency := Currency("USD", "$")

  const CurrencyTable: map<string, Currency> := map[
    "UAE" := Currency("AED", "\U{062F}.\U{0625}"),
    "Japan" := Currency("JPY", "\U{00A5}"),
    "Philippines" := Currency("PHP", "\U{20B1}"),
    "Greece" := Currency("EUR", "\U{20AC}"),
    "Italy" := Currency("EUR", "\U{20AC}"),
    "France" := Currency("EUR", "\U{20AC}"),
    "USA" := Currency("USD", "$"),
    "China" := Currency("CNY", "\U{00A5}"),
    "Peru" := Currency("PEN", "S/")]

  /** `currencyMap[country] || { code: 'USD', symbol: '$' }`. */
  function CurrencyFor(country: string): (r: Currency)
    ensures r in CurrencyTable.Values || r == FallbackCurrency
  {
    if country in CurrencyTable then CurrencyTable[country] else FallbackCurrency
  }

  /** Only the UAE is shown in dirham; the dollar is the USA's and every unknown country's. */
  lemma CurrencyCodes(country: string)
    ensures CurrencyFor(country).code == "AED" <==> country == "UAE"
    ensures CurrencyFor(country).code == "USD" <==> country == "USA" || country !in CurrencyTable
    ensures CurrencyFor(country).code == "EUR" <==> country in {"Greece", "Italy", "France"}
  {
  }

  /** The first day's morning location, when there is one. */
  function FirstLocation(itinerary: AIItinerary): (r: Option<SavedLocation>)
    ensures r.Some? ==> |itinerary.days| > 0 && itinerary.days[0].morning.Some?
                        && itinerary.days[0].morning.value.location == r
    ensures |itinerary.days| == 0 ==> r.None?
  {
    if |itinerary.days| == 0 then None
    else match itinerary.days[0].morning
      case Some(slot) => slot.location
      case None => None
  }

  /** The currency after the page's effect: the first stop's country decides; without a (non-empty) country the current one stays. */
  function DetectCurrency(itinerary: AIItinerary, current: Currency): (r: Currency)
    ensures match FirstLocation(itinerary)
      case Some(l) =>
        if l.country.Some? && l.country.value != "" then r == CurrencyFor(l.country.value) else r == current
      case None => r == current
  {
    match FirstLocation(itinerary)
    case Some(l) =>
      if l.country.Some? && l.country.value != "" then CurrencyFor(l.country.value) else current
    case None => current
  }

  /** The guest multiplier `adults + children * 0.7 + infants * 0.3`, or 2 without search parameters. */
  function Multiplier(params: Option<TripSearchParams>): (r: real)
    ensures params.None? ==> r == 2.0
    ensures params.Some? ==> 10.0 * r == (10 * params.value.adults + 7 * params.value.children + 3 * params.value.infants) as real
  {
    match params
    case Some(p) => p.adults as real + p.children as real * 0.7 + p.infants as real * 0.3
    case None => 2.0
  }

  /** Ten times the multiplier, a whole number. */
  function Weight(params: Option<TripSearchParams>): (k: int)
    ensures k as real == 10.0 * Multiplier(params)
  {
    match params
    case Some(p) => 10 * p.adults + 7 * p.children + 3 * p.infants
    case None => 20
  }

  datatype Budget = Budget(accommodation: int, transport: int, food: int, activities: int, total: int)

  /** The initial, all-zero budget. */
  const NoBudget := Budget(0, 0, 0, 0, 0)

  /** The estimate as the page computes it, with `Math.round` over the real multiplier. */
  function BudgetFor(params: Option<TripSearchParams>, days: int): (r: Budget)
    ensures r.total == r.accommodation + r.transport + r.food + r.activities
    ensures r.transport == 20 * days
  {
    var m := Multiplier(params);
    var accommodation := RouteSequencer.Round(150.0 * m) * days;
    var transport := 20 * days;
    var food := RouteSequencer.Round(50.0 * m * days as real);
    var activities := RouteSequencer.Round(40.0 * m * days as real);
    Budget(accommodation, transport, food, activities, accommodation + transport + food + activities)
  }

  lemma RoundWhole(x: real, n: int)
    requires x == n as real
    ensures RouteSequencer.Round(x) == n
  {
  }

  lemma ScaledProduct(m: real, k: int, c: int, days: int)
    requires 10.0 * m == k as real
    ensures (c as real) * m * days as real == ((c * k * days) as real) / 10.0
  {
    assert (c * k * days) as real == (c as real) * (k as real) * (days as real);
  }

  /**
   * Every rounding is exact: with k ten times the multiplier, the nightly
   * rate is 15k, food 5k a day and activities 4k a day, and the total is
   * linear in the number of days.
   */
  lemma BudgetInWholeNumbers(params: Option<TripSearchParams>, days: int)
    ensures var b := BudgetFor(params, days); var k := Weight(params);
      && b.accommodation == 15 * k * days
      && b.transport == 20 * days
      && b.food == 5 * k * days
      && b.activities == 4 * k * days
      && b.total == b.accommodation + b.transport + b.food + b.activities
      && b.total == (24 * k + 20) * days
  {
    var m := Multiplier(params);
    var k := Weight(params);
    RoundWhole(150.0 * m, 15 * k);
    ScaledProduct(m, k, 50, days);
    RoundWhole(50.0 * m * days as real, 5 * k * days);
    ScaledProduct(m, k, 40, days);
    RoundWhole(40.0 * m * days as real, 4 * k * days);
    var b := BudgetFor(params, days);
    assert b.accommodation == 15 * k * days && b.transport == 20 * days;
    assert b.food == 5 * k * days && b.activities == 4 * k * days;
    TotalLinear(k, days);
  }

  lemma TotalLinear(k: int, days: int)
    ensures 15 * k * days + 20 * days + 5 * k * days + 4 * k * days == (24 * k + 20) * days
  {
  }

  /** Without search parameters the party counts as two adults. */
  lemma DefaultPartyIsTwoAdults(days: int, p: TripSearchParams)
    requires p.adults == 2 && p.children == 0 && p.infants == 0
    ensures BudgetFor(None, days) == BudgetFor(Some(p), days)
  {
    BudgetInWholeNumbers(None, days);
    BudgetInWholeNumbers(Some(p), days);
  }

  /** A larger party never costs less. */
  lemma BudgetMonotone(p: TripSearchParams, q: TripSearchParams, days: nat)
    requires p.adults <= q.adults && p.children <= q.children && p.infants <= q.infants
    ensures BudgetFor(Some(p), days).total <= BudgetFor(Some(q), days).total
  {
    BudgetInWholeNumbers(Some(p), days);
    BudgetInWholeNumbers(Some(q), days);
    var kp, kq := Weight(Some(p)), Weight(Some(q));
    assert kp <= kq;
    MultiplyBoth(24 * kp + 20, 24 * kq + 20, days);
  }

  lemma MultiplyBoth(x: int, y: int, days: nat)
    requires x <= y
    ensures x * days <= y * days
  {
  }

  datatype ViewState = ViewState(currency: Currency, budget: Budget)

  const InitialView := ViewState(DefaultCurrency, NoBudget)

  /** The page's effect: nothing changes without an AI itinerary; otherwise currency and budget are recomputed over its days. */
  function Refresh(view: ViewState, ai: Option<AIItinerary>, params: Option<TripSearchParams>): (r: ViewState)
    ensures ai.None? ==> r == view
    ensures ai.Some? ==> r.currency == DetectCurrency(ai.value, view.currency)
    ensures ai.Some? ==> r.budget == BudgetFor(params, |ai.value.days|)
  {
    match ai
    case None => view
    case Some(it) => ViewState(DetectCurrency(it, view.currency), BudgetFor(params, |it.days|))
  }

  /** Running the effect again on the same inputs changes nothing. */
  lemma RefreshIdempotent(view: ViewState, ai: Option<AIItinerary>, params: Option<TripSearchParams>)
    ensures Refresh(Refresh(view, ai, params), ai, params) == Refresh(view, ai, params)
  {
  }

  datatype Screen = NoSavedLocations | NoItinerary | ItineraryShown

  function ScreenFor(saved: seq<SavedLocation>, ai: Option<AIItinerary>): (r: Screen)
    ensures r == NoSavedLocations <==> |saved| == 0
    ensures r == NoItinerary <==> |saved| > 0 && ai.None?
    ensures r == ItineraryShown <==> |saved| > 0 && ai.Some?
  {
    if |saved| == 0 then NoSavedLocations
    else if ai.None? then NoItinerary
    else ItineraryShown
  }
}
