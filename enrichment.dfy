/**
 * The per-flight assembly shared by `app/api/destinations/route.ts` and
 * `app/api/chat/route.ts`: for each flight, in order, the attractions and the
 * weather (each degrading on its own failure) and the transport guide entry.
 */
module Enrichment {
  import opened Wrappers
  import opened Types
  import Transport

  /** A settled promise: resolved with a value, or rejected. */
  datatype Settled<T> = Resolved(value: T) | Rejected

  /** `attractions.catch(() => [])`. */
  function AttractionsOrEmpty(s: Settled<seq<Attraction>>): seq<Attraction> {
    if s.Resolved? then s.value else []
  }

  /** `weather.catch(() => null)`. */
  function WeatherOrNull(s: Settled<Option<WeatherData>>): Option<WeatherData> {
    if s.Resolved? then s.value else None
  }

  /** One destination record for one flight. */
  function BuildDestination(flight: FlightOffer, attractions: Settled<seq<Attraction>>,
                            weather: Settled<Option<WeatherData>>): (d: DestinationOption)
    ensures d.destination == flight.destination && d.destinationName == flight.destinationName
    ensures d.flight == flight && d.totalEstimatedCost == flight.price
    ensures d.transport == Transport.GetAirportTransport(flight.destination)
    ensures attractions.Resolved? ==> d.attractions == attractions.value
    ensures attractions.Rejected? ==> d.attractions == []
    ensures weather.Resolved? ==> d.weather == weather.value
    ensures weather.Rejected? ==> d.weather.None?
  {
    DestinationOption(
      destination := flight.destination,
      destinationName := flight.destinationName,
      flight := flight,
      attractions := AttractionsOrEmpty(attractions),
      weather := WeatherOrNull(weather),
      transport := Transport.GetAirportTransport(flight.destination),
      totalEstimatedCost := flight.price)
  }

  /**
   * `Promise.all(flights.map(...))`, sequentially: record `i` is built from
   * flight `i` alone, with `getAttractions(destination, 5)` and
   * `getWeatherForecast(destination, departureDate)` as `attractionsOf` and
   * `weatherOf`.
   */
  function Enrich(flights: seq<FlightOffer>, attractionsOf: string -> Settled<seq<Attraction>>,
                  weatherOf: (string, string) -> Settled<Option<WeatherData>>): (r: seq<DestinationOption>)
    ensures |r| == |flights|
    ensures forall i :: 0 <= i < |flights| ==>
              r[i] == BuildDestination(flights[i], attractionsOf(flights[i].destination),
                                       weatherOf(flights[i].destination, flights[i].departureDate))
  {
    if flights == [] then []
    else [BuildDestination(flights[0], attractionsOf(flights[0].destination),
                           weatherOf(flights[0].destination, flights[0].departureDate))]
         + Enrich(flights[1..], attractionsOf, weatherOf)
  }
}
