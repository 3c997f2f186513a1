/**
 * The static airport-to-city transport guide of `lib/transport.ts` and its two
 * accessors.
 */
module Transport {
  import opened Wrappers
  import opened Types

  const BCN_TRANSPORT := AirportTransport("BCN", "Barcelona El Prat", [
      TransportOption("Aerobus", "5.90 EUR (~26 PLN)", "35 min",
        Some("co 5-10 min"),
        Some("Najszybsza i najtańsza opcja - bezpośredni kurs do centrum")),
      TransportOption("Metro L9", "5.15 EUR (~23 PLN)", "45 min",
        Some("co 7 min"),
        Some("Budżetowa opcja, możliwość przesiadek")),
      TransportOption("Taxi", "30-40 EUR (~135-180 PLN)", "20-30 min",
        None,
        Some("Najwygodniejsza, dobra dla 3-4 osób")),
      TransportOption("Uber/Bolt", "25-35 EUR (~110-155 PLN)", "20-30 min",
        None,
        None)
    ])

  const MAD_TRANSPORT := AirportTransport("MAD", "Madrid Barajas", [
      TransportOption("Metro", "5 EUR (~22 PLN)", "30-40 min",
        Some("co 5 min"),
        Some("Najtańsza opcja z przesiadkami")),
      TransportOption("Express Bus 203", "5 EUR (~22 PLN)", "40 min",
        Some("co 15 min"),
        Some("Bezpośredni kurs, wygodny")),
      TransportOption("Taxi", "30 EUR (~135 PLN)", "20-30 min",
        None,
        Some("Stała cena do centrum"))
    ])

  const LIS_TRANSPORT := AirportTransport("LIS", "Lisbon Portela", [
      TransportOption("Metro (Linha Vermelha)", "1.50 EUR (~7 PLN)", "25 min",
        Some("co 6-9 min"),
        Some("Najtańsza opcja, bezpośredni kurs")),
      TransportOption("Aerobus", "4 EUR (~18 PLN)", "30-40 min",
        Some("co 20 min"),
        Some("Wygodny z bagażem")),
      TransportOption("Taxi/Uber", "15-20 EUR (~65-90 PLN)", "15-25 min",
        None,
        Some("Dobra cena za wygodę"))
    ])

  const FCO_TRANSPORT := AirportTransport("FCO", "Rome Fiumicino", [
      TransportOption("Leonardo Express", "14 EUR (~62 PLN)", "32 min",
        Some("co 15-30 min"),
        Some("Najszybszy pociąg do centrum")),
      TransportOption("Pociąg regionalny", "8 EUR (~35 PLN)", "45 min",
        Some("co 15-30 min"),
        None),
      TransportOption("Taxi", "48 EUR stała cena (~215 PLN)", "30-50 min",
        None,
        Some("Stała cena do centrum"))
    ])

  const CDG_TRANSPORT := AirportTransport("CDG", "Paris Charles de Gaulle", [
      TransportOption("RER B", "11.45 EUR (~51 PLN)", "30-40 min",
        Some("co 10-15 min"),
        Some("Najtańsza opcja do centrum")),
      TransportOption("Roissybus", "16.60 EUR (~74 PLN)", "60 min",
        Some("co 15-20 min"),
        None),
      TransportOption("Taxi", "50-55 EUR (~220-245 PLN)", "30-50 min",
        None,
        Some("Stała cena, wygodnie"))
    ])

  const LHR_TRANSPORT := AirportTransport("LHR", "London Heathrow", [
      TransportOption("Heathrow Express", "25 GBP (~130 PLN)", "15 min",
        Some("co 15 min"),
        Some("Najszybszy do centrum")),
      TransportOption("Elizabeth Line", "12.80 GBP (~66 PLN)", "30 min",
        Some("co 5 min"),
        Some("Dobry stosunek ceny do czasu")),
      TransportOption("Metro (Piccadilly Line)", "5.50 GBP (~29 PLN)", "50 min",
        Some("co 5-10 min"),
        Some("Najtańsza opcja")),
      TransportOption("Taxi", "60-90 GBP (~310-465 PLN)", "40-70 min",
        None,
        None)
    ])

  const AMS_TRANSPORT := AirportTransport("AMS", "Amsterdam Schiphol", [
      TransportOption("Pociąg do Centraal", "5.50 EUR (~24 PLN)", "15-20 min",
        Some("co 10-15 min"),
        Some("Najlepszy wybór - szybko i tanio")),
      TransportOption("Bus 397", "6.50 EUR (~29 PLN)", "30 min",
        Some("co 10 min"),
        None),
      TransportOption("Taxi", "40-50 EUR (~180-225 PLN)", "20-30 min",
        None,
        None)
    ])

  const BER_TRANSPORT := AirportTransport("BER", "Berlin Brandenburg", [
      TransportOption("Airport Express (FEX)", "3.80 EUR (~17 PLN)", "30 min",
        Some("co 30 min"),
        Some("Najszybsza opcja")),
      TransportOption("S-Bahn S9/S45", "3.80 EUR (~17 PLN)", "45 min",
        Some("co 20 min"),
        Some("Tania i wygodna")),
      TransportOption("Taxi/Uber", "45-55 EUR (~200-245 PLN)", "30-40 min",
        None,
        None)
    ])

  const ATH_TRANSPORT := AirportTransport("ATH", "Athens International", [
      TransportOption("Metro Linia 3", "9 EUR (~40 PLN)", "40 min",
        Some("co 30 min"),
        Some("Najlepsza opcja do centrum")),
      TransportOption("Express Bus X95", "5.50 EUR (~24 PLN)", "60 min",
        Some("co 20 min"),
        None),
      TransportOption("Taxi", "38 EUR (~170 PLN)", "30-50 min",
        None,
        Some("Stała cena w dzień"))
    ])

  const PRG_TRANSPORT := AirportTransport("PRG", "Prague Václav Havel", [
      TransportOption("Airport Express", "60 CZK (~11 PLN)", "35 min",
        Some("co 30 min"),
        Some("Szybki i wygodny")),
      TransportOption("Public Bus + Metro", "40 CZK (~7 PLN)", "45-60 min",
        Some("co 10-15 min"),
        Some("Najtańsza opcja")),
      TransportOption("Taxi", "600-800 CZK (~110-145 PLN)", "25-35 min",
        None,
        None)
    ])

  const WAW_TRANSPORT := AirportTransport("WAW", "Warsaw Chopin", [
      TransportOption("Pociąg SKM", "4.40 PLN", "25 min",
        Some("co 15 min"),
        Some("Najszybsza i najtańsza do centrum")),
      TransportOption("Autobus 175/188", "4.40 PLN", "30-40 min",
        Some("co 10-15 min"),
        None),
      TransportOption("Taxi", "40-60 PLN", "20-30 min",
        None,
        Some("Stała cena, wygodnie")),
      TransportOption("Uber/Bolt", "35-50 PLN", "20-30 min",
        None,
        None)
    ])

  const KRK_TRANSPORT := AirportTransport("KRK", "Krakow Balice", [
      TransportOption("Pociąg do Głównego", "9 PLN", "17 min",
        Some("co 30 min"),
        Some("Najszybsza opcja")),
      TransportOption("Autobus 208/209", "4.40 PLN", "40-50 min",
        Some("co 15-20 min"),
        None),
      TransportOption("Taxi", "90-110 PLN", "20-30 min",
        None,
        None)
    ])

  const GDN_TRANSPORT := AirportTransport("GDN", "Gdansk Lech Walesa", [
      TransportOption("Pociąg SKM", "4.40 PLN", "30 min",
        Some("co 30 min"),
        Some("Najlepsza opcja")),
      TransportOption("Autobus 210", "4.40 PLN", "40 min",
        Some("co 30 min"),
        None),
      TransportOption("Taxi", "60-80 PLN", "20-25 min",
        None,
        None)
    ])

  /** The guide by IATA code. */
  const AIRPORT_TRANSPORTS: map<string, AirportTransport> := map[
    "BCN" := BCN_TRANSPORT,
    "MAD" := MAD_TRANSPORT,
    "LIS" := LIS_TRANSPORT,
    "FCO" := FCO_TRANSPORT,
    "CDG" := CDG_TRANSPORT,
    "LHR" := LHR_TRANSPORT,
    "AMS" := AMS_TRANSPORT,
    "BER" := BER_TRANSPORT,
    "ATH" := ATH_TRANSPORT,
    "PRG" := PRG_TRANSPORT,
    "WAW" := WAW_TRANSPORT,
    "KRK" := KRK_TRANSPORT,
    "GDN" := GDN_TRANSPORT
  ]

  /** The keys of the guide in declaration order (the order of `Object.keys`). */
  const AIRPORT_CODES: seq<string> := ["BCN", "MAD", "LIS", "FCO", "CDG", "LHR", "AMS", "BER", "ATH", "PRG", "WAW", "KRK", "GDN"]

  /** `AIRPORT_TRANSPORTS[code] || null`: every entry is an object, so only a missing key gives `null`. */
  function GetAirportTransport(code: string): (r: Option<AirportTransport>)
    ensures r.Some? <==> code in AIRPORT_TRANSPORTS
    ensures r.Some? ==> r.value == AIRPORT_TRANSPORTS[code]
  {
    if code in AIRPORT_TRANSPORTS then Some(AIRPORT_TRANSPORTS[code]) else None
  }

  /** `Object.keys(AIRPORT_TRANSPORTS)`. */
  function GetAvailableAirports(): (r: seq<string>)
    ensures forall c :: c in r <==> c in AIRPORT_TRANSPORTS
    ensures forall i, j :: 0 <= i < j < |r| ==> r[i] != r[j]
  {
    AIRPORT_CODES
  }

  /** An entry found under a code describes the airport with that code and offers at least one option. */
  lemma TransportEntriesWellFormed(code: string)
    ensures GetAirportTransport(code).Some? ==>
              GetAirportTransport(code).value.airportCode == code
              && |GetAirportTransport(code).value.options| > 0
  {
  }

  /** The listed airports are exactly those with transport data. */
  lemma AvailableAirportsHaveTransport(code: string)
    ensures code in GetAvailableAirports() <==> GetAirportTransport(code).Some?
  {
  }

  /**
   * Of the destinations the mock flight generator invents, only Barcelona and
   * Lisbon have transport data; the city codes ROM, PAR and LON do not.
   */
  lemma MockDestinationsTransport()
    ensures GetAirportTransport("BCN").Some? && GetAirportTransport("LIS").Some?
    ensures GetAirportTransport("ROM").None? && GetAirportTransport("PAR").None?
    ensures GetAirportTransport("LON").None?
  {
  }
}
