/**
 * The flight search pipeline of `lib/amadeus.ts`: a cache-aside read, the
 * provider (or the mock generator when no client is configured), the
 * normalisation of provider records, the filters, the stable price sort, the
 * truncation and the cache write.
 */
module Amadeus {
  import opened Wrappers
  import opened JsText
  import opened Seqs
  import opened Types
  import opened Cache
  import Utils

  // ------------------------------------------------------------ provider records

  datatype Endpoint = Endpoint(iataCode: string, at: string)

  datatype Segment = Segment(departure: Endpoint, arrival: Endpoint)

  datatype Itinerary = Itinerary(segments: seq<Segment>, duration: Option<string>)

  /** A Flight Offers Search record; `total` is `price.total` already read as a number. */
  datatype RawOffer = RawOffer(
    id: string,
    itineraries: seq<Itinerary>,
    total: int,
    currency: string,
    validatingAirlineCodes: Option<seq<string>>)

  /** A Flight Inspiration Search record; `total` is absent when `price.total` is missing or empty. */
  datatype RawDestination = RawDestination(
    destination: string,
    total: Option<int>,
    returnDate: Option<string>)

  /**
   * The client's two endpoints. `None` is a request that throws; `Some(None)`
   * is a response without `data`.
   */
  datatype Client = Client(
    offersSearch: FlightSearchParams -> Option<Option<seq<RawOffer>>>,
    destinationsSearch: FlightSearchParams -> Option<Option<seq<RawDestination>>>)

  // ------------------------------------------------------------ formatters

  /** An offer whose outbound itinerary and first segment exist; any other throws. */
  predicate Formattable(o: RawOffer) {
    |o.itineraries| > 0 && |o.itineraries[0].segments| > 0
  }

  /** One Flight Offers Search record as a `FlightOffer`. */
  function FormatOffer(o: RawOffer): (f: FlightOffer)
    requires Formattable(o)
    ensures f.id == o.id && f.price == o.total && f.currency == o.currency
    ensures f.destination == o.itineraries[0].segments[0].arrival.iataCode
    ensures f.destinationName == Utils.GetCityName(f.destination)
    ensures f.stops == Some(|o.itineraries[0].segments| - 1)
    ensures f.departureTime == Some(f.departureDate)
  {
    var outbound := o.itineraries[0];
    var first := outbound.segments[0];
    var last := outbound.segments[|outbound.segments| - 1];
    FlightOffer(
      id := o.id,
      destination := first.arrival.iataCode,
      destinationName := Utils.GetCityName(first.arrival.iataCode),
      price := o.total,
      currency := o.currency,
      departureDate := first.departure.at,
      returnDate :=
        if |o.itineraries| > 1 && |o.itineraries[1].segments| > 0
        then Some(o.itineraries[1].segments[0].departure.at) else None,
      airline :=
        if o.validatingAirlineCodes.Some? && |o.validatingAirlineCodes.value| > 0
        then Some(o.validatingAirlineCodes.value[0]) else None,
      duration := outbound.duration,
      stops := Some(|outbound.segments| - 1),
      departureTime := Some(first.departure.at),
      arrivalTime := Some(last.arrival.at))
  }

  /** A formatted offer is direct exactly when its outbound itinerary has one segment. */
  lemma FormattedDirectIffOneSegment(o: RawOffer)
    requires Formattable(o)
    ensures FormatOffer(o).stops == Some(0) <==> |o.itineraries[0].segments| == 1
  {
  }

  function FormatAll(data: seq<RawOffer>): (r: Option<seq<FlightOffer>>)
    ensures r.Some? <==> forall i :: 0 <= i < |data| ==> Formattable(data[i])
    ensures r.Some? ==> |r.value| == |data|
                        && forall i :: 0 <= i < |data| ==> Formattable(data[i]) && r.value[i] == FormatOffer(data[i])
  {
    if data == [] then Some([])
    else if !Formattable(data[0]) then None
    else
      match FormatAll(data[1..])
      case None => None
      case Some(rest) => Some([FormatOffer(data[0])] + rest)
  }

  /**
   * `formatFlightOffers`: no data gives `[]`; otherwise one offer per record in
   * order, and a record without an outbound segment makes the whole call throw
   * (`None`).
   */
  function FormatFlightOffers(data: Option<seq<RawOffer>>): (r: Option<seq<FlightOffer>>)
    ensures data.None? ==> r == Some([])
    ensures data.Some? ==> (r.Some? <==> forall i :: 0 <= i < |data.value| ==> Formattable(data.value[i]))
    ensures data.Some? && r.Some? ==>
              |r.value| == |data.value|
              && forall i :: 0 <= i < |data.value| ==> Formattable(data.value[i]) && r.value[i] == FormatOffer(data.value[i])
  {
    if data.None? || data.value == [] then Some([]) else FormatAll(data.value)
  }

  /** One Flight Inspiration Search record, at position `index`. */
  function FormatDestination(d: RawDestination, index: nat, departureDate: string): FlightOffer {
    FlightOffer(
      id := "inspiration-" + NatToString(index),
      destination := d.destination,
      destinationName := Utils.GetCityName(d.destination),
      price := d.total.GetOr(0),
      currency := "PLN",
      departureDate := departureDate,
      returnDate := d.returnDate,
      airline := None,
      duration := None,
      stops := None,
      departureTime := None,
      arrivalTime := None)
  }

  function FormatDestinationsFrom(data: seq<RawDestination>, start: nat, departureDate: string): (r: seq<FlightOffer>)
    ensures |r| == |data|
    ensures forall i :: 0 <= i < |data| ==> r[i] == FormatDestination(data[i], start + i, departureDate)
  {
    if data == [] then []
    else [FormatDestination(data[0], start, departureDate)] + FormatDestinationsFrom(data[1..], start + 1, departureDate)
  }

  /**
   * `formatInspirationalFlights`: one offer per record, with id
   * `inspiration-<index>`, the record's destination, price 0 when absent and
   * the requested departure date.
   */
  function FormatInspirationalFlights(data: Option<seq<RawDestination>>, departureDate: string): (r: seq<FlightOffer>)
    ensures |r| == if data.None? then 0 else |data.value|
    ensures forall i :: 0 <= i < |r| ==>
              r[i].id == "inspiration-" + NatToString(i)
              && r[i].destination == data.value[i].destination
              && r[i].price == (if data.value[i].total.Some? then data.value[i].total.value else 0)
              && r[i].departureDate == departureDate
              && r[i].stops.None?
  {
    if data.None? || data.value == [] then [] else FormatDestinationsFrom(data.value, 0, departureDate)
  }

  /** The ids given to inspiration results are pairwise distinct. */
  lemma InspirationIdsDistinct(data: Option<seq<RawDestination>>, departureDate: string, i: nat, j: nat)
    requires i < j < |FormatInspirationalFlights(data, departureDate)|
    ensures FormatInspirationalFlights(data, departureDate)[i].id != FormatInspirationalFlights(data, departureDate)[j].id
  {
    var r := FormatInspirationalFlights(data, departureDate);
    if r[i].id == r[j].id {
      var p := "inspiration-";
      assert r[i].id[|p|..] == NatToString(i);
      assert r[j].id[|p|..] == NatToString(j);
      NatToStringInjective(i, j);
    }
  }

  // ------------------------------------------------------------ mock data

  const MOCK_CODES: seq<string> := ["BCN", "LIS", "ROM", "PAR", "LON"]
  const MOCK_NAMES: seq<string> := ["Barcelona", "Lisbon", "Rome", "Paris", "London"]

  function MockOffer(code: string, name: string, index: nat, params: FlightSearchParams): FlightOffer {
    FlightOffer(
      id := "mock-" + code + "-" + NatToString(index),
      destination := code,
      destinationName := name,
      price := 300 + index * 50,
      currency := "PLN",
      departureDate := params.departureDate,
      returnDate := if Truthy(params.returnDate) then params.returnDate else None,
      airline := Some("LOT Polish Airlines"),
      duration := Some("2h 30m"),
      stops := Some(0),
      departureTime := Some("10:00"),
      arrivalTime := Some("12:30"))
  }

  /**
   * `generateMockFlights`: one offer for a given destination, otherwise the five
   * default cities priced 300, 350, ..., 500; all direct, all on the requested
   * departure date.
   */
  function GenerateMockFlights(params: FlightSearchParams): (r: seq<FlightOffer>)
    ensures Truthy(params.destination) ==>
              |r| == 1 && r[0].destination == params.destination.value
              && r[0].destinationName == Utils.GetCityName(params.destination.value)
    ensures !Truthy(params.destination) ==>
              |r| == 5 && forall i :: 0 <= i < 5 ==> r[i].destination == MOCK_CODES[i]
    ensures forall i :: 0 <= i < |r| ==>
              r[i].price == 300 + 50 * i && r[i].stops == Some(0)
              && r[i].departureDate == params.departureDate && r[i].currency == "PLN"
  {
    if Truthy(params.destination) then
      var code := params.destination.value;
      [MockOffer(code, Utils.GetCityName(code), 0, params)]
    else
      seq(5, i requires 0 <= i < 5 => MockOffer(MOCK_CODES[i], MOCK_NAMES[i], i, params))
  }

  // ------------------------------------------------------------ provider branch

  /** `searchSpecificDestination`: the mock data without a client, else the formatted offers. */
  function SearchSpecificDestination(params: FlightSearchParams, client: Option<Client>): (r: Option<seq<FlightOffer>>)
    ensures client.None? ==> r == Some(GenerateMockFlights(params))
    ensures client.Some? && client.value.offersSearch(params).None? ==> r.None?
    ensures client.Some? && client.value.offersSearch(params).Some? ==>
              r == FormatFlightOffers(client.value.offersSearch(params).value)
  {
    if client.None? then Some(GenerateMockFlights(params))
    else
      match client.value.offersSearch(params)
      case None => None
      case Some(data) => FormatFlightOffers(data)
  }

  /** `searchInspirationFlights`: the mock data without a client, else the formatted destinations. */
  function SearchInspirationFlights(params: FlightSearchParams, client: Option<Client>): (r: Option<seq<FlightOffer>>)
    ensures client.None? ==> r == Some(GenerateMockFlights(params))
    ensures client.Some? && client.value.destinationsSearch(params).None? ==> r.None?
    ensures client.Some? && client.value.destinationsSearch(params).Some? ==>
              r == Some(FormatInspirationalFlights(client.value.destinationsSearch(params).value, params.departureDate))
  {
    if client.None? then Some(GenerateMockFlights(params))
    else
      match client.value.destinationsSearch(params)
      case None => None
      case Some(data) => Some(FormatInspirationalFlights(data, params.departureDate))
  }

  /** Whether the search names a specific destination ("anywhere" does not). */
  predicate IsSpecific(params: FlightSearchParams) {
    Truthy(params.destination) && params.destination.value != "anywhere"
  }

  /** The offers before filtering, or `None` when the provider call throws. */
  function Fetch(params: FlightSearchParams, client: Option<Client>): Option<seq<FlightOffer>> {
    if IsSpecific(params) then SearchSpecificDestination(params, client)
    else SearchInspirationFlights(params, client)
  }

  /**
   * Without a client, a search for "anywhere" goes to the inspiration branch
   * but the mock generator still sees a truthy destination: one offer to a
   * place called "anywhere".
   */
  lemma MockAnywhereQuirk(params: FlightSearchParams)
    requires params.destination == Some("anywhere")
    ensures Fetch(params, None).Some?
    ensures |Fetch(params, None).value| == 1 && Fetch(params, None).value[0].destination == "anywhere"
  {
    Utils.CityNamesAreNames();
    assert !Utils.IsThreeCapitals("anywhere");
    assert Utils.GetCityName("anywhere") == "anywhere";
  }

  // ------------------------------------------------------------ filters

  /** A local wall-clock reading: `getHours()` and `getMinutes()`. */
  datatype Clock = Clock(hour: int, minute: int)

  function PriceOf(o: FlightOffer): int {
    o.price
  }

  /** `params.maxPrice` in a boolean context (0 and absent are falsy). */
  predicate MaxPriceSet(params: FlightSearchParams) {
    params.maxPrice.Some? && params.maxPrice.value != 0
  }

  predicate PriceTest(params: FlightSearchParams, o: FlightOffer) {
    !MaxPriceSet(params) || o.price <= params.maxPrice.value
  }

  /** The arrival filter runs only when a ceiling is given and the FIRST input offer has an arrival time. */
  predicate ArrivalFilterOn(params: FlightSearchParams, offers: seq<FlightOffer>) {
    Truthy(params.maxArrivalTime) && |offers| > 0 && Truthy(offers[0].arrivalTime)
  }

  /** `maxArrivalTime.split(':').map(Number)`: the hour and minute, `None` for `NaN` or a missing field. */
  function Ceiling(maxArrivalTime: string): (Option<nat>, Option<nat>) {
    var parts := Split(maxArrivalTime, ':');
    (NumberOf(parts[0]), if |parts| > 1 then NumberOf(parts[1]) else None)
  }

  /**
   * `arrivalHour < maxHour || (arrivalHour === maxHour && arrivalMinute <= maxMinute)`;
   * every comparison with `NaN` is false.
   */
  predicate NotLater(c: Option<Clock>, maxHour: Option<nat>, maxMinute: Option<nat>) {
    c.Some? && maxHour.Some?
    && (c.value.hour < maxHour.value
        || (c.value.hour == maxHour.value && maxMinute.Some? && c.value.minute <= maxMinute.value))
  }

  /** Offers without an arrival time pass; the others must not arrive later than the ceiling. */
  predicate ArrivalTest(params: FlightSearchParams, timeOf: string -> Option<Clock>, o: FlightOffer)
    requires Truthy(params.maxArrivalTime)
  {
    var (maxHour, maxMinute) := Ceiling(params.maxArrivalTime.value);
    !Truthy(o.arrivalTime) || NotLater(timeOf(o.arrivalTime.value), maxHour, maxMinute)
  }

  predicate DirectOnly(params: FlightSearchParams) {
    params.directFlightsOnly == Some(true)
  }

  predicate DirectTest(params: FlightSearchParams, o: FlightOffer) {
    !DirectOnly(params) || o.stops == Some(0)
  }

  /** Whether `o` survives all three filters applied to the list `offers`. */
  predicate Keeps(params: FlightSearchParams, offers: seq<FlightOffer>, timeOf: string -> Option<Clock>, o: FlightOffer) {
    PriceTest(params, o)
    && (!ArrivalFilterOn(params, offers) || ArrivalTest(params, timeOf, o))
    && DirectTest(params, o)
  }

  /** The reference result of `applyFilters`: the surviving offers, stably sorted by price. */
  function Ranked(offers: seq<FlightOffer>, params: FlightSearchParams, timeOf: string -> Option<Clock>)
    : (r: seq<FlightOffer>)
    ensures SortedBy(r, PriceOf)
    ensures multiset(r) == multiset(Filter(offers, o => Keeps(params, offers, timeOf, o)))
  {
    var survivors := Filter(offers, o => Keeps(params, offers, timeOf, o));
    SortSorted(survivors, PriceOf);
    SortByKey(survivors, PriceOf)
  }

  /**
   * What `applyFilters` promises: only survivors of the filters, every survivor,
   * ascending by price, ties in input order.
   */
  lemma RankedProperties(offers: seq<FlightOffer>, params: FlightSearchParams, timeOf: string -> Option<Clock>)
    ensures SortedBy(Ranked(offers, params, timeOf), PriceOf)
    ensures multiset(Ranked(offers, params, timeOf)) <= multiset(offers)
    ensures forall o :: o in offers ==> (o in Ranked(offers, params, timeOf) <==> Keeps(params, offers, timeOf, o))
    ensures forall o :: o in Ranked(offers, params, timeOf) ==> Keeps(params, offers, timeOf, o)
    ensures forall k :: WithKey(Ranked(offers, params, timeOf), PriceOf, k)
                     == WithKey(Filter(offers, o => Keeps(params, offers, timeOf, o)), PriceOf, k)
  {
    var survivors := Filter(offers, o => Keeps(params, offers, timeOf, o));
    var r := Ranked(offers, params, timeOf);
    SortSorted(survivors, PriceOf);
    forall k ensures WithKey(r, PriceOf, k) == WithKey(survivors, PriceOf, k) {
      SortStable(survivors, PriceOf, k);
    }
    forall o | o in offers && Keeps(params, offers, timeOf, o) ensures o in r {
      assert o in multiset(r);
    }
    forall o | o in r ensures Keeps(params, offers, timeOf, o) {
      assert o in multiset(survivors);
    }
  }

  /** One conditional filter step keeps the list equal to filtering the input by the tests so far. */
  lemma FilterStep<T>(s: seq<T>, current: seq<T>, keep: T -> bool, applied: bool,
                      test: T -> bool, actual: T -> bool, next: T -> bool)
    requires current == Filter(s, keep)
    requires forall x :: next(x) == (keep(x) && (!applied || test(x)))
    requires applied ==> forall x :: actual(x) == test(x)
    ensures (if applied then Filter(current, actual) else current) == Filter(s, next)
  {
    if applied {
      FilterTwice(s, keep, actual, next);
    } else {
      FilterExt(s, keep, next);
    }
  }

  /**
   * `applyFilters`: the price ceiling (when truthy), the arrival ceiling (when
   * the first offer has an arrival time), direct-only (when set), then a stable
   * ascending sort by price.
   */
  method ApplyFilters(offers: seq<FlightOffer>, params: FlightSearchParams, timeOf: string -> Option<Clock>)
    returns (filtered: seq<FlightOffer>)
    ensures filtered == Ranked(offers, params, timeOf)
    ensures SortedBy(filtered, PriceOf)
    ensures multiset(filtered) <= multiset(offers)
    ensures forall o :: o in offers ==> (o in filtered <==> Keeps(params, offers, timeOf, o))
  {
    ghost var keep: FlightOffer -> bool := o => true;
    FilterKeepsAll(offers, keep);
    filtered := offers;

    ghost var next: FlightOffer -> bool := o => keep(o) && PriceTest(params, o);
    var maxPrice := params.maxPrice.GetOr(0);
    FilterStep(offers, filtered, keep, MaxPriceSet(params), (o: FlightOffer) => o.price <= maxPrice,
               (o: FlightOffer) => o.price <= maxPrice, next);
    if params.maxPrice.Some? && params.maxPrice.value != 0 {
      filtered := Filter(filtered, (o: FlightOffer) => o.price <= maxPrice);
    }
    keep := next;

    var (maxHour, maxMinute) := Ceiling(params.maxArrivalTime.GetOr(""));
    var arrives := (o: FlightOffer) =>
      !Truthy(o.arrivalTime) || NotLater(timeOf(o.arrivalTime.value), maxHour, maxMinute);
    next := o => keep(o) && (!ArrivalFilterOn(params, offers) || ArrivalTest(params, timeOf, o));
    FilterStep(offers, filtered, keep, ArrivalFilterOn(params, offers), arrives, arrives, next);
    if Truthy(params.maxArrivalTime) && |offers| > 0 && Truthy(offers[0].arrivalTime) {
      filtered := Filter(filtered, arrives);
    }
    keep := next;

    next := o => keep(o) && DirectTest(params, o);
    FilterStep(offers, filtered, keep, DirectOnly(params), (o: FlightOffer) => o.stops == Some(0),
               (o: FlightOffer) => o.stops == Some(0), next);
    if params.directFlightsOnly == Some(true) {
      filtered := Filter(filtered, (o: FlightOffer) => o.stops == Some(0));
    }
    keep := next;

    FilterExt(offers, keep, o => Keeps(params, offers, timeOf, o));
    filtered := SortByKey(filtered, PriceOf);
    RankedProperties(offers, params, timeOf);
  }

  // ------------------------------------------------------------ search

  /** `params.maxResults || 10`. */
  function MaxResults(params: FlightSearchParams): int {
    if params.maxResults.Some? && params.maxResults.value != 0 then params.maxResults.value else 10
  }

  /** A prefix of a sorted list is sorted and takes nothing the list does not have. */
  lemma SortedPrefixIsSubset(ranked: seq<FlightOffer>, k: nat)
    requires SortedBy(ranked, PriceOf) && k <= |ranked|
    ensures SortedBy(ranked[..k], PriceOf) && multiset(ranked[..k]) <= multiset(ranked)
  {
    SortedPrefix(ranked, k, PriceOf);
    assert ranked == ranked[..k] + ranked[k..];
  }

  /** What a cache miss returns and stores: the ranked offers cut to the limit; `None` when the provider throws. */
  function Fresh(params: FlightSearchParams, client: Option<Client>, timeOf: string -> Option<Clock>)
    : (r: Option<seq<FlightOffer>>)
    ensures r.None? <==> Fetch(params, client).None?
    ensures r.Some? ==> SortedBy(r.value, PriceOf)
    ensures r.Some? && MaxResults(params) > 0 ==> |r.value| <= MaxResults(params)
    ensures r.Some? ==> multiset(r.value) <= multiset(Fetch(params, client).value)
  {
    match Fetch(params, client)
    case None => None
    case Some(offers) =>
      var ranked := Ranked(offers, params, timeOf);
      var kept := SliceTo(ranked, MaxResults(params));
      SortedPrefixIsSubset(ranked, |kept|);
      Some(kept)
  }

  /**
   * Truncation happens after filtering and sorting: a fresh result is a prefix
   * of the ranked survivors, holds `min(limit, survivors)` offers for a
   * positive limit, and no dropped survivor is cheaper than a kept one.
   */
  lemma FreshIsCheapest(params: FlightSearchParams, client: Option<Client>, timeOf: string -> Option<Clock>)
    requires Fresh(params, client, timeOf).Some?
    ensures var ranked := Ranked(Fetch(params, client).value, params, timeOf);
            var r := Fresh(params, client, timeOf).value;
            r == ranked[..|r|]
            && (MaxResults(params) > 0 ==> |r| == if |ranked| < MaxResults(params) then |ranked| else MaxResults(params))
            && SortedBy(r, PriceOf)
            && forall i, j :: 0 <= i < |r| <= j < |ranked| ==> r[i].price <= ranked[j].price
  {
    var offers := Fetch(params, client).value;
    var ranked := Ranked(offers, params, timeOf);
    var r := Fresh(params, client, timeOf).value;
    assert r == SliceTo(ranked, MaxResults(params));
    RankedProperties(offers, params, timeOf);
    SortedPrefix(ranked, |r|, PriceOf);
  }

  /** Every cached list is sorted by price and no longer than its request's positive limit. */
  ghost predicate CachedListsValid(entries: map<FlightSearchParams, seq<FlightOffer>>) {
    forall k :: k in entries ==>
      SortedBy(entries[k], PriceOf) && (MaxResults(k) > 0 ==> |entries[k]| <= MaxResults(k))
  }

  /** Storing a sorted list within its limit keeps every cached list valid. */
  lemma StoreKeepsValid(entries: map<FlightSearchParams, seq<FlightOffer>>, key: FlightSearchParams, list: seq<FlightOffer>)
    requires CachedListsValid(entries)
    requires SortedBy(list, PriceOf) && (MaxResults(key) > 0 ==> |list| <= MaxResults(key))
    ensures CachedListsValid(entries[key := list])
  {
  }

  /** A fresh result is sorted, and storing it keeps every cached list valid. */
  lemma FreshKeepsCacheValid(entries: map<FlightSearchParams, seq<FlightOffer>>, params: FlightSearchParams,
                             client: Option<Client>, timeOf: string -> Option<Clock>)
    requires Fresh(params, client, timeOf).Some?
    ensures SortedBy(Fresh(params, client, timeOf).value, PriceOf)
    ensures CachedListsValid(entries) ==> CachedListsValid(entries[params := Fresh(params, client, timeOf).value])
  {
    FreshIsCheapest(params, client, timeOf);
    if CachedListsValid(entries) {
      StoreKeepsValid(entries, params, Fresh(params, client, timeOf).value);
    }
  }

  /**
   * `searchFlights`: a hit under the request's key returns the cached list
   * without a provider call; a miss fetches, filters, sorts, truncates and
   * stores the result. A failing cache read counts as a miss, a failing write
   * is ignored, and a provider error gives `[]` with nothing stored.
   */
  method SearchFlights(params: FlightSearchParams, store: Store?<FlightSearchParams, seq<FlightOffer>>,
                       client: Option<Client>, timeOf: string -> Option<Clock>, readOk: bool, writeOk: bool)
    returns (offers: seq<FlightOffer>)
    modifies store
    ensures store != null && readOk && params in old(store.entries) ==>
              offers == old(store.entries)[params] && store.entries == old(store.entries)
    ensures !(store != null && readOk && params in old(store.entries)) ==>
              match Fresh(params, client, timeOf)
              case None =>
                offers == [] && (store != null ==> store.entries == old(store.entries))
              case Some(result) =>
                offers == result
                && (store != null ==> store.entries == if writeOk then old(store.entries)[params := result]
                                                       else old(store.entries))
    ensures store != null && CachedListsValid(old(store.entries)) ==>
              CachedListsValid(store.entries) && SortedBy(offers, PriceOf)
  {
    if store != null {
      var cached := store.Get(params, readOk);
      if cached.Some? {
        assert CachedListsValid(store.entries) ==> SortedBy(cached.value, PriceOf);
        return cached.value;
      }
    }
    var fetched := if IsSpecific(params) then SearchSpecificDestination(params, client)
                   else SearchInspirationFlights(params, client);
    assert fetched == Fetch(params, client);
    if fetched.None? {
      return [];
    }
    offers := ApplyFilters(fetched.value, params, timeOf);
    offers := SliceTo(offers, MaxResults(params));
    assert Fresh(params, client, timeOf) == Some(offers);
    if store != null {
      FreshKeepsCacheValid(store.entries, params, client, timeOf);
      store.SetEx(params, offers, writeOk);
    }
  }
}
