/**
 * The destinations handler of `app/api/destinations/route.ts`: authentication,
 * parameter validation, the flight search, truncation to `maxResults || 3`
 * and the per-flight assembly. The session lookup, the body parse and the
 * adapters are parameters: `userId` is what the session yields, `body` is
 * `None` when the body is not JSON, and `search` is `searchFlights`.
 */
module DestinationsRoute {
  import opened Wrappers
  import opened JsText
  import opened Types
  import opened Enrichment

  /** The responses the handler can give. */
  datatype Reply =
    | Unauthorized                                        // 401
    | MissingParameters                                   // 400
    | Found(destinations: seq<DestinationOption>)         // 200, `{ destinations }`
    | NoFlights                                           // 200, `destinations: []` and a hint
    | Failed                                              // 500, from the outer catch

  function Status(r: Reply): (code: int)
    ensures code in {200, 400, 401, 500}
    ensures code == 200 <==> r.Found? || r.NoFlights?
  {
    match r
    case Unauthorized => 401
    case MissingParameters => 400
    case Found(_) => 200
    case NoFlights => 200
    case Failed => 500
  }

  /** `params.maxResults || 3`. */
  function TopCount(params: FlightSearchParams): (n: int)
    ensures n != 0
    ensures params.maxResults.Some? && params.maxResults.value != 0 ==> n == params.maxResults.value
    ensures params.maxResults.None? || params.maxResults.value == 0 ==> n == 3
  {
    if params.maxResults.Some? && params.maxResults.value != 0 then params.maxResults.value else 3
  }

  /** `!params.origin || !params.departureDate`. */
  predicate MissingRequired(params: FlightSearchParams) {
    params.origin == "" || params.departureDate == ""
  }

  /**
   * `POST /api/destinations`. Nothing is searched for an anonymous caller or a
   * request without origin or date; an empty result is answered without any
   * lookup; otherwise the first `maxResults || 3` flights are enriched in order.
   */
  method Post(userId: Option<string>, body: Option<FlightSearchParams>,
              search: FlightSearchParams -> Settled<seq<FlightOffer>>,
              attractionsOf: string -> Settled<seq<Attraction>>,
              weatherOf: (string, string) -> Settled<Option<WeatherData>>)
    returns (r: Reply)
    ensures !Truthy(userId) ==> r == Unauthorized
    ensures Truthy(userId) && body.None? ==> r == Failed
    ensures Truthy(userId) && body.Some? && MissingRequired(body.value) ==> r == MissingParameters
    ensures Truthy(userId) && body.Some? && !MissingRequired(body.value) ==>
              match search(body.value)
              case Rejected => r == Failed
              case Resolved(flights) =>
                (flights == [] ==> r == NoFlights)
                && (flights != [] ==> r == Found(Enrich(SliceTo(flights, TopCount(body.value)), attractionsOf, weatherOf)))
    ensures r.Found? ==> |r.destinations| > 0 || (body.Some? && TopCount(body.value) < 0)
  {
    if !Truthy(userId) {
      return Unauthorized;
    }
    if body.None? {
      return Failed;
    }
    var params := body.value;
    if params.origin == "" || params.departureDate == "" {
      return MissingParameters;
    }
    var searched := search(params);
    if searched.Rejected? {
      return Failed;
    }
    var flights := searched.value;
    if |flights| == 0 {
      return NoFlights;
    }
    var topFlights := SliceTo(flights, TopCount(params));
    r := Found(Enrich(topFlights, attractionsOf, weatherOf));
  }

  /**
   * With a positive `maxResults` (or none), the reply holds
   * `min(maxResults || 3, flights found)` destinations, the `i`-th built from
   * the `i`-th flight in search order, costing exactly its fare.
   */
  lemma FoundShape(params: FlightSearchParams, flights: seq<FlightOffer>,
                   attractionsOf: string -> Settled<seq<Attraction>>,
                   weatherOf: (string, string) -> Settled<Option<WeatherData>>)
    requires TopCount(params) > 0
    ensures var d := Enrich(SliceTo(flights, TopCount(params)), attractionsOf, weatherOf);
            |d| == (if |flights| < TopCount(params) then |flights| else TopCount(params))
            && forall i :: 0 <= i < |d| ==>
                 d[i].flight == flights[i] && d[i].totalEstimatedCost == flights[i].price
                 && d[i].destination == flights[i].destination
  {
  }

  /**
   * A negative `maxResults` drops that many flights from the end
   * (`slice(0, -k)`), so it can answer 200 with fewer, or no, destinations.
   */
  lemma NegativeMaxResultsDropsFromEnd(params: FlightSearchParams, flights: seq<FlightOffer>,
                                       attractionsOf: string -> Settled<seq<Attraction>>,
                                       weatherOf: (string, string) -> Settled<Option<WeatherData>>)
    requires params.maxResults == Some(-1) && |flights| >= 1
    ensures |Enrich(SliceTo(flights, TopCount(params)), attractionsOf, weatherOf)| == |flights| - 1
  {
  }
}
