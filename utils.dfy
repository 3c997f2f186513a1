/**
 * Static lookups and small formatters of `lib/utils.ts`: city names and
 * coordinates by IATA code, code validation, the `YYYY-MM-DD` request date,
 * the weather-icon emoji and the whole-day distance between two instants.
 */
module Utils {
  import opened Wrappers
  import opened JsText
  import opened Types

  // City names (in Polish) by IATA airport code, in three parts of the source's listing.

  /** Poland, Spain, Portugal and Italy. */
  const CITIES_1: map<string, string> := map[
    "WAW" := "Warszawa",
    "KRK" := "Kraków",
    "GDN" := "Gdańsk",
    "KTW" := "Katowice",
    "WMI" := "Warszawa Modlin",
    "WRO" := "Wrocław",
    "POZ" := "Poznań",
    "RZE" := "Rzeszów",
    "BCN" := "Barcelona",
    "MAD" := "Madryt",
    "AGP" := "Malaga",
    "PMI" := "Palma de Mallorca",
    "SVQ" := "Sewilla",
    "VLC" := "Walencja",
    "ALC" := "Alicante",
    "LIS" := "Lizbona",
    "OPO" := "Porto",
    "FAO" := "Faro",
    "FCO" := "Rzym",
    "MXP" := "Mediolan",
    "VCE" := "Wenecja",
    "NAP" := "Neapol",
    "BGY" := "Bergamo",
    "BLQ" := "Bolonia"
  ]

  /** France, the United Kingdom, the Netherlands and Germany. */
  const CITIES_2: map<string, string> := map[
    "CDG" := "Paryż",
    "ORY" := "Paryż Orly",
    "NCE" := "Nicea",
    "LYS" := "Lyon",
    "MRS" := "Marsylia",
    "LHR" := "Londyn",
    "LGW" := "Londyn Gatwick",
    "STN" := "Londyn Stansted",
    "LTN" := "Londyn Luton",
    "MAN" := "Manchester",
    "EDI" := "Edynburg",
    "AMS" := "Amsterdam",
    "EIN" := "Eindhoven",
    "RTM" := "Rotterdam",
    "BER" := "Berlin",
    "MUC" := "Monachium",
    "FRA" := "Frankfurt",
    "DUS" := "Düsseldorf",
    "HAM" := "Hamburg",
    "CGN" := "Kolonia"
  ]

  /** Greece, Czechia, Austria, Hungary, Ireland, Belgium, Denmark, Sweden, Norway, Croatia and Switzerland. */
  const CITIES_3: map<string, string> := map[
    "ATH" := "Ateny",
    "HER" := "Heraklion",
    "RHO" := "Rodos",
    "SKG" := "Saloniki",
    "PRG" := "Praga",
    "VIE" := "Wiedeń",
    "SZG" := "Salzburg",
    "BUD" := "Budapeszt",
    "DUB" := "Dublin",
    "BRU" := "Bruksela",
    "CRL" := "Bruksela Charleroi",
    "CPH" := "Kopenhaga",
    "ARN" := "Sztokholm",
    "GOT" := "Göteborg",
    "OSL" := "Oslo",
    "BGO" := "Bergen",
    "ZAG" := "Zagrzeb",
    "SPU" := "Split",
    "DBV" := "Dubrownik",
    "ZRH" := "Zurych",
    "GVA" := "Genewa"
  ]

  const IATA_TO_CITY: map<string, string> := CITIES_1 + CITIES_2 + CITIES_3

  /** Airport coordinates, in 1/10 000 degree. */
  const IATA_TO_COORDS: map<string, Coordinates> := map[
    "WAW" := Coordinates(522297, 210122),
    "KRK" := Coordinates(500647, 199450),
    "GDN" := Coordinates(543520, 186466),
    "BCN" := Coordinates(413874, 21686),
    "LIS" := Coordinates(387223, -91393),
    "MAD" := Coordinates(404168, -37038),
    "FCO" := Coordinates(419028, 124964),
    "CDG" := Coordinates(488566, 23522),
    "LHR" := Coordinates(515074, -1278),
    "AMS" := Coordinates(523676, 49041),
    "BER" := Coordinates(525200, 134050),
    "ATH" := Coordinates(379838, 237275),
    "PRG" := Coordinates(500755, 144378),
    "DUB" := Coordinates(533498, -62603),
    "VIE" := Coordinates(482082, 163738),
    "BUD" := Coordinates(474979, 190402),
    "MXP" := Coordinates(454642, 91900),
    "VCE" := Coordinates(454408, 123155),
    "ZRH" := Coordinates(473769, 85417),
    "CPH" := Coordinates(556761, 125683),
    "OSL" := Coordinates(599139, 107522)
  ]

  /** `IATA_TO_CITY[code] || code`: the city name, or the code itself. */
  function GetCityName(code: string): (r: string)
    ensures code in IATA_TO_CITY && IATA_TO_CITY[code] != "" ==> r == IATA_TO_CITY[code]
    ensures code !in IATA_TO_CITY ==> r == code
  {
    if code in IATA_TO_CITY && IATA_TO_CITY[code] != "" then IATA_TO_CITY[code] else code
  }

  /** A well-formed part: three-capital codes mapped to non-empty names other than the code. */
  ghost predicate NamesWellFormed(m: map<string, string>) {
    forall k :: k in m ==> m[k] != "" && m[k] != k && IsThreeCapitals(k)
  }

  lemma Cities1WellFormed()
    ensures NamesWellFormed(CITIES_1)
  {
    forall k | k in CITIES_1 ensures CITIES_1[k] != "" && CITIES_1[k] != k && IsThreeCapitals(k) {
      assert k in {"WAW", "KRK", "GDN", "KTW", "WMI", "WRO", "POZ", "RZE", "BCN", "MAD", "AGP", "PMI", "SVQ", "VLC", "ALC", "LIS", "OPO", "FAO", "FCO", "MXP", "VCE", "NAP", "BGY", "BLQ"};
    }
  }

  lemma Cities2WellFormed()
    ensures NamesWellFormed(CITIES_2)
  {
    forall k | k in CITIES_2 ensures CITIES_2[k] != "" && CITIES_2[k] != k && IsThreeCapitals(k) {
      assert k in {"CDG", "ORY", "NCE", "LYS", "MRS", "LHR", "LGW", "STN", "LTN", "MAN", "EDI", "AMS", "EIN", "RTM", "BER", "MUC", "FRA", "DUS", "HAM", "CGN"};
    }
  }

  lemma Cities3WellFormed()
    ensures NamesWellFormed(CITIES_3)
  {
    forall k | k in CITIES_3 ensures CITIES_3[k] != "" && CITIES_3[k] != k && IsThreeCapitals(k) {
      assert k in {"ATH", "HER", "RHO", "SKG", "PRG", "VIE", "SZG", "BUD", "DUB", "BRU", "CRL", "CPH", "ARN", "GOT", "OSL", "BGO", "ZAG", "SPU", "DBV", "ZRH", "GVA"};
    }
  }

  lemma UnionWellFormed(a: map<string, string>, b: map<string, string>)
    requires NamesWellFormed(a) && NamesWellFormed(b)
    ensures NamesWellFormed(a + b)
  {
  }

  /** No city name is empty and none equals its own code. */
  lemma CityNamesAreNames()
    ensures NamesWellFormed(IATA_TO_CITY)
  {
    Cities1WellFormed();
    Cities2WellFormed();
    Cities3WellFormed();
    UnionWellFormed(CITIES_1, CITIES_2);
    UnionWellFormed(CITIES_1 + CITIES_2, CITIES_3);
  }

  /** `getCityName` echoes its argument exactly for the codes the table does not know. */
  lemma GetCityNameEchoesUnknown(code: string)
    ensures GetCityName(code) == code <==> code !in IATA_TO_CITY
    ensures code in IATA_TO_CITY ==> GetCityName(code) == IATA_TO_CITY[code]
  {
    CityNamesAreNames();
  }

  const ZERO := Coordinates(0, 0)

  /** `IATA_TO_COORDS[code] || { lat: 0, lon: 0 }`. */
  function GetCoordinates(code: string): (r: Coordinates)
    ensures code in IATA_TO_COORDS ==> r == IATA_TO_COORDS[code]
    ensures code !in IATA_TO_COORDS ==> r == ZERO
  {
    if code in IATA_TO_COORDS then IATA_TO_COORDS[code] else ZERO
  }

  /** The zero pair is returned for exactly the codes without an entry. */
  lemma ZeroCoordinatesMeanUnknown(code: string)
    ensures GetCoordinates(code) == ZERO <==> code !in IATA_TO_COORDS
  {
    forall k | k in IATA_TO_COORDS ensures IATA_TO_COORDS[k] != ZERO {
      assert k in {
        "WAW", "KRK", "GDN", "BCN", "LIS", "MAD", "FCO", "CDG", "LHR", "AMS", "BER",
        "ATH", "PRG", "DUB", "VIE", "BUD", "MXP", "VCE", "ZRH", "CPH", "OSL"
      };
    }
  }

  /** Every airport with coordinates also has a city name. */
  lemma CoordinatesHaveCityNames(code: string)
    requires code in IATA_TO_COORDS
    ensures IsValidIataCode(code) && GetCityName(code) != code
  {
    CoordinatesKeysAreCities(code);
    CityNamesAreNames();
  }

  lemma CoordinatesKeysAreCities(code: string)
    requires code in IATA_TO_COORDS
    ensures code in IATA_TO_CITY
  {
    CoordinatesKeys(code);
    if code in {"WAW", "KRK", "GDN", "BCN", "LIS", "MAD", "FCO", "MXP", "VCE"} {
      InCities1(code);
      InUnion(CITIES_1, CITIES_2, CITIES_3, code);
    } else if code in {"CDG", "LHR", "AMS", "BER"} {
      InCities2(code);
      InUnion(CITIES_1, CITIES_2, CITIES_3, code);
    } else {
      InCities3(code);
      InUnion(CITIES_1, CITIES_2, CITIES_3, code);
    }
  }

  /** Airport codes with coordinates are three capital letters. */
  lemma CoordinatesKeysAreCodes(code: string)
    requires code in IATA_TO_COORDS
    ensures IsThreeCapitals(code)
  {
    CoordinatesKeys(code);
  }

  lemma CoordinatesKeys(code: string)
    requires code in IATA_TO_COORDS
    ensures code in {"WAW", "KRK", "GDN", "BCN", "LIS", "MAD", "FCO", "CDG", "LHR", "AMS", "BER", "ATH", "PRG", "DUB", "VIE", "BUD", "MXP", "VCE", "ZRH", "CPH", "OSL"}
  {
  }

  lemma InUnion<V>(a: map<string, V>, b: map<string, V>, c: map<string, V>, code: string)
    requires code in a || code in b || code in c
    ensures code in a + b + c
  {
  }

  lemma InCities1(code: string)
    requires code in {"WAW", "KRK", "GDN", "BCN", "LIS", "MAD", "FCO", "MXP", "VCE"}
    ensures code in CITIES_1
  {
  }

  lemma InCities2(code: string)
    requires code in {"CDG", "LHR", "AMS", "BER"}
    ensures code in CITIES_2
  {
  }

  lemma InCities3(code: string)
    requires code in {"ATH", "PRG", "DUB", "VIE", "BUD", "ZRH", "CPH", "OSL"}
    ensures code in CITIES_3
  {
  }

  predicate IsUpperLetter(c: char) {
    'A' <= c <= 'Z'
  }

  /** `/^[A-Z]{3}$/.test(code)`. */
  predicate IsThreeCapitals(code: string) {
    |code| == 3 && IsUpperLetter(code[0]) && IsUpperLetter(code[1]) && IsUpperLetter(code[2])
  }

  /**
   * `/^[A-Z]{3}$/.test(code) && code in IATA_TO_CITY`. The pattern test is
   * implied by membership: validity is exactly being a key.
   */
  predicate IsValidIataCode(code: string)
    ensures IsValidIataCode(code) <==> code in IATA_TO_CITY
    ensures IsValidIataCode(code) ==> IsThreeCapitals(code)
  {
    CityNamesAreNames();
    IsThreeCapitals(code) && code in IATA_TO_CITY
  }

  // ------------------------------------------------------------ dates

  /** The local calendar fields of a `Date`: `getFullYear`, `getMonth`, `getDate`. */
  datatype LocalDate = LocalDate(year: int, monthIndex: int, day: int)

  predicate IsCalendarFields(d: LocalDate) {
    0 <= d.monthIndex < 12 && 1 <= d.day <= 31
  }

  /** `String(n).padStart(2, '0')`. */
  function Pad2(n: nat): (r: string)
    ensures AllDigits(r) && DigitsValue(r) == n
    ensures n < 100 ==> |r| == 2
  {
    var s := NatToString(n);
    NatToStringRoundTrip(n);
    if |s| >= 2 then s
    else
      DigitsValueLeadingZero(s);
      "0" + s
  }

  /** `${year}-${month}-${day}` with month and day padded and the year as is. */
  function FormatDateForApi(d: LocalDate): (r: string)
    requires IsCalendarFields(d)
    ensures |r| == |IntToString(d.year)| + 6
    ensures r[|r| - 6] == '-' && r[|r| - 3] == '-'
  {
    IntToString(d.year) + "-" + Pad2(d.monthIndex + 1) + "-" + Pad2(d.day)
  }

  /**
   * Reads back `year-MM-DD` for a non-negative year: three dash-separated runs
   * of digits, the middle one being the month number.
   */
  function ParseApiDate(s: string): (r: Option<LocalDate>)
    ensures r.Some? ==> r.value.year >= 0
  {
    var parts := Split(s, '-');
    if |parts| == 3 && parts[0] != "" && AllDigits(parts[0])
       && |parts[1]| == 2 && AllDigits(parts[1]) && |parts[2]| == 2 && AllDigits(parts[2])
    then Some(LocalDate(DigitsValue(parts[0]), DigitsValue(parts[1]) - 1, DigitsValue(parts[2])))
    else None
  }

  /** For years from 0 on, the request date reads back to the same fields. */
  lemma FormatDateRoundTrip(d: LocalDate)
    requires IsCalendarFields(d) && d.year >= 0
    ensures ParseApiDate(FormatDateForApi(d)) == Some(d)
  {
    var y := NatToString(d.year);
    var m := Pad2(d.monthIndex + 1);
    var dd := Pad2(d.day);
    NatToStringRoundTrip(d.year);
    DigitsHaveNoSeparator(y, '-');
    DigitsHaveNoSeparator(m, '-');
    DigitsHaveNoSeparator(dd, '-');
    assert FormatDateForApi(d) == y + ['-'] + m + ['-'] + dd;
    SplitThree(y, m, dd, '-');
  }


  /** The full-date production of RFC 3339 section 5.6: `DDDD-DD-DD`. */
  predicate IsFullDate(s: string) {
    |s| == 10 && s[4] == '-' && s[7] == '-'
    && AllDigits(s[..4]) && AllDigits(s[5..7]) && AllDigits(s[8..])
  }

  /** Four-digit years give an RFC 3339 full-date; shorter years are not padded. */
  lemma FormatDateIsFullDate(d: LocalDate)
    requires IsCalendarFields(d)
    ensures 1000 <= d.year <= 9999 ==> IsFullDate(FormatDateForApi(d))
    ensures 0 <= d.year < 1000 ==> !IsFullDate(FormatDateForApi(d))
  {
    if 0 <= d.year {
      NatToStringLength(d.year);
      var r := FormatDateForApi(d);
      var y := NatToString(d.year);
      var m := Pad2(d.monthIndex + 1);
      var dd := Pad2(d.day);
      assert r == y + "-" + m + "-" + dd;
      if 1000 <= d.year <= 9999 {
        assert r[..4] == y && r[5..7] == m && r[8..] == dd;
      }
    }
  }

  /** Decimal length: four digits exactly for 1000..9999, fewer below 1000. */
  lemma {:induction false} NatToStringLength(n: nat)
    ensures n < 1000 ==> |NatToString(n)| <= 3
    ensures 1000 <= n <= 9999 ==> |NatToString(n)| == 4
  {
    if n >= 10 {
      NatToStringLength(n / 10);
    }
  }

  // ------------------------------------------------------------ weather icon

  const SUN := "☀️"
  const SUN_BEHIND_CLOUD := "⛅"
  const CLOUD := "☁️"
  const RAIN := "🌧️"
  const STORM := "⛈️"
  const SNOW := "❄️"
  const FOG := "🌫️"
  const SUN_AND_CLOUD := "🌤️"

  /** The icon prefixes in the order they are tested, with their emoji. */
  const EMOJI_BY_PREFIX: seq<(string, string)> := [
    ("01", SUN), ("02", SUN_BEHIND_CLOUD), ("03", CLOUD), ("04", CLOUD),
    ("09", RAIN), ("10", RAIN), ("11", STORM), ("13", SNOW), ("50", FOG)
  ]

  /** The emoji of the first prefix from position `i` on that `icon` starts with, or the default. */
  function EmojiFrom(icon: string, i: nat): string
    requires i <= |EMOJI_BY_PREFIX|
    decreases |EMOJI_BY_PREFIX| - i
  {
    if i == |EMOJI_BY_PREFIX| then SUN_AND_CLOUD
    else if StartsWith(icon, EMOJI_BY_PREFIX[i].0) then EMOJI_BY_PREFIX[i].1
    else EmojiFrom(icon, i + 1)
  }

  /** `getWeatherEmoji`: a chain of prefix tests, first match wins. */
  function GetWeatherEmoji(icon: string): (r: string)
    ensures r in [SUN, SUN_BEHIND_CLOUD, CLOUD, RAIN, STORM, SNOW, FOG, SUN_AND_CLOUD]
  {
    if StartsWith(icon, "01") then SUN
    else if StartsWith(icon, "02") then SUN_BEHIND_CLOUD
    else if StartsWith(icon, "03") || StartsWith(icon, "04") then CLOUD
    else if StartsWith(icon, "09") || StartsWith(icon, "10") then RAIN
    else if StartsWith(icon, "11") then STORM
    else if StartsWith(icon, "13") then SNOW
    else if StartsWith(icon, "50") then FOG
    else SUN_AND_CLOUD
  }

  /** The chain of tests is the ordered prefix table read first-match-first. */
  lemma WeatherEmojiIsTableLookup(icon: string)
    ensures GetWeatherEmoji(icon) == EmojiFrom(icon, 0)
  {
    assert EmojiFrom(icon, 9) == SUN_AND_CLOUD;
    assert EmojiFrom(icon, 8) == if StartsWith(icon, "50") then FOG else EmojiFrom(icon, 9);
    assert EmojiFrom(icon, 7) == if StartsWith(icon, "13") then SNOW else EmojiFrom(icon, 8);
    assert EmojiFrom(icon, 6) == if StartsWith(icon, "11") then STORM else EmojiFrom(icon, 7);
    assert EmojiFrom(icon, 5) == if StartsWith(icon, "10") then RAIN else EmojiFrom(icon, 6);
    assert EmojiFrom(icon, 4) == if StartsWith(icon, "09") then RAIN else EmojiFrom(icon, 5);
    assert EmojiFrom(icon, 3) == if StartsWith(icon, "04") then CLOUD else EmojiFrom(icon, 4);
    assert EmojiFrom(icon, 2) == if StartsWith(icon, "03") then CLOUD else EmojiFrom(icon, 3);
    assert EmojiFrom(icon, 1) == if StartsWith(icon, "02") then SUN_BEHIND_CLOUD else EmojiFrom(icon, 2);
  }

  /** Only a two-character icon code matters: night and day variants agree. */
  lemma WeatherEmojiByCode(icon: string)
    requires |icon| >= 2
    ensures GetWeatherEmoji(icon) == GetWeatherEmoji(icon[..2])
  {
    WeatherEmojiIsTableLookup(icon);
    WeatherEmojiIsTableLookup(icon[..2]);
    EmojiFromByCode(icon, 0);
  }

  /** Every prefix of the table is two characters long. */
  lemma PrefixesHaveTwoCharacters(i: nat)
    requires i < |EMOJI_BY_PREFIX|
    ensures |EMOJI_BY_PREFIX[i].0| == 2
  {
  }

  /** Reading the table from position `i` looks only at the first two characters. */
  lemma {:induction false} EmojiFromByCode(icon: string, i: nat)
    requires |icon| >= 2 && i <= |EMOJI_BY_PREFIX|
    ensures EmojiFrom(icon, i) == EmojiFrom(icon[..2], i)
    decreases |EMOJI_BY_PREFIX| - i
  {
    if i < |EMOJI_BY_PREFIX| {
      var p := EMOJI_BY_PREFIX[i].0;
      PrefixesHaveTwoCharacters(i);
      assert icon[..2][..2] == icon[..2];
      assert StartsWith(icon, p) == StartsWith(icon[..2], p);
      EmojiFromByCode(icon, i + 1);
    }
  }

  // ------------------------------------------------------------ days

  const DAY_MS := 1000 * 60 * 60 * 24

  /** `Math.ceil(Math.abs(t2 - t1) / DAY_MS)` for two instants in milliseconds. */
  function DaysBetween(t1: int, t2: int): (r: nat)
    ensures var gap := if t2 >= t1 then t2 - t1 else t1 - t2;
            (r - 1) * DAY_MS < gap <= r * DAY_MS || (gap == 0 && r == 0)
  {
    var gap := if t2 >= t1 then t2 - t1 else t1 - t2;
    (gap + DAY_MS - 1) / DAY_MS
  }

  /** The day count does not depend on the order of its arguments and is zero only for equal instants. */
  lemma DaysBetweenSymmetric(t1: int, t2: int)
    ensures DaysBetween(t1, t2) == DaysBetween(t2, t1)
    ensures DaysBetween(t1, t2) == 0 <==> t1 == t2
  {
  }
}
