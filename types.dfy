/**
 * The records exchanged by the core (`lib/types.ts`). Optional members are
 * `Option`s; prices are whole amounts; coordinates are degrees scaled by
 * 10 000; dates carried as `Date` objects are millisecond timestamps.
 */
module Types {
  import opened Wrappers

  datatype FlightOffer = FlightOffer(
    id: string,
    destination: string,
    destinationName: string,
    price: int,
    currency: string,
    departureDate: string,
    returnDate: Option<string>,
    airline: Option<string>,
    duration: Option<string>,
    stops: Option<int>,
    departureTime: Option<string>,
    arrivalTime: Option<string>)

  /** A search request; "" stands for a missing `origin` or `departureDate`. */
  datatype FlightSearchParams = FlightSearchParams(
    origin: string,
    destination: Option<string>,
    departureDate: string,
    returnDate: Option<string>,
    maxPrice: Option<int>,
    maxArrivalTime: Option<string>,
    minDuration: Option<int>,
    maxDuration: Option<int>,
    currency: Option<string>,
    directFlightsOnly: Option<bool>,
    preferences: Option<string>,
    maxResults: Option<int>)

  datatype WeatherData = WeatherData(
    destination: string,
    date: string,
    temperatureAvg: int,
    temperatureMin: int,
    temperatureMax: int,
    description: string,
    icon: string)

  /** Latitude and longitude in units of 1/10 000 degree. */
  datatype Coordinates = Coordinates(lat: int, lon: int)

  datatype Attraction = Attraction(
    name: string,
    description: Option<string>,
    category: string,
    coordinates: Coordinates,
    wikipediaUrl: Option<string>,
    image: Option<string>,
    rating: Option<int>)

  /** `type` is a keyword here, so the mode of transport is `kind`. */
  datatype TransportOption = TransportOption(
    kind: string,
    price: string,
    duration: string,
    frequency: Option<string>,
    recommendation: Option<string>)

  datatype AirportTransport = AirportTransport(
    airportCode: string,
    airportName: string,
    options: seq<TransportOption>)

  datatype DestinationOption = DestinationOption(
    destination: string,
    destinationName: string,
    flight: FlightOffer,
    attractions: seq<Attraction>,
    weather: Option<WeatherData>,
    transport: Option<AirportTransport>,
    totalEstimatedCost: int)

  datatype Role = User | Assistant

  datatype Message = Message(
    id: string,
    role: Role,
    content: string,
    destinations: Option<seq<DestinationOption>>,
    timestamp: int)

  datatype Conversation = Conversation(
    id: string,
    userId: string,
    title: string,
    messages: seq<Message>,
    createdAt: int,
    updatedAt: int)
}
