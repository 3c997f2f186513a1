/**
 * The weather adapter of `lib/openweather.ts`: a cache-aside read keyed by
 * destination and date, a guard on unknown coordinates, the daily forecast
 * lookup by exact day string, and the Polish translation of descriptions.
 */
module OpenWeather {
  import opened Wrappers
  import opened JsText
  import opened Types
  import opened Cache
  import Utils

  // ------------------------------------------------------------ translation

  /** OpenWeather descriptions (lower case) and their Polish wording: clouds, rain and storms. */
  const TRANSLATIONS_1: map<string, string> := map[
    "clear sky" := "bezchmurnie",
    "few clouds" := "lekkie zachmurzenie",
    "scattered clouds" := "częściowe zachmurzenie",
    "broken clouds" := "pochmurno",
    "overcast clouds" := "całkowite zachmurzenie",
    "shower rain" := "przelotny deszcz",
    "light rain" := "lekki deszcz",
    "moderate rain" := "umiarkowany deszcz",
    "heavy intensity rain" := "intensywny deszcz",
    "very heavy rain" := "bardzo intensywny deszcz",
    "extreme rain" := "ekstremalny deszcz",
    "freezing rain" := "marznący deszcz",
    "light intensity shower rain" := "lekkie opady",
    "heavy intensity shower rain" := "intensywne opady",
    "ragged shower rain" := "nieregularne opady",
    "thunderstorm" := "burza",
    "thunderstorm with light rain" := "burza z lekkim deszczem",
    "thunderstorm with rain" := "burza z deszczem",
    "thunderstorm with heavy rain" := "burza z intensywnym deszczem",
    "light thunderstorm" := "lekka burza",
    "heavy thunderstorm" := "silna burza",
    "ragged thunderstorm" := "gwałtowna burza"
  ]

  /** Snow, sleet and atmosphere. */
  const TRANSLATIONS_2: map<string, string> := map[
    "snow" := "śnieg",
    "light snow" := "lekki śnieg",
    "heavy snow" := "intensywne opady śniegu",
    "sleet" := "deszcz ze śniegiem",
    "light shower sleet" := "lekkie opady deszczu ze śniegiem",
    "shower sleet" := "deszcz ze śniegiem",
    "light rain and snow" := "lekki deszcz ze śniegiem",
    "rain and snow" := "deszcz ze śniegiem",
    "light shower snow" := "lekkie opady śniegu",
    "shower snow" := "opady śniegu",
    "heavy shower snow" := "intensywne opady śniegu",
    "mist" := "mgła",
    "smoke" := "dym",
    "haze" := "zamglenie",
    "sand/dust whirls" := "pył",
    "fog" := "gęsta mgła",
    "sand" := "burza piaskowa",
    "dust" := "pył",
    "volcanic ash" := "popiół wulkaniczny",
    "squalls" := "szkwały",
    "tornado" := "tornado"
  ]

  const TRANSLATIONS: map<string, string> := TRANSLATIONS_1 + TRANSLATIONS_2

  /** The lookup key of a description: `desc.toLowerCase().trim()`. */
  function Normalize(desc: string): string {
    Trim(Lower(desc))
  }

  /** `translations[normalized] || desc`: a known description in Polish, anything else as given. */
  function TranslateWeatherDescription(desc: string): (r: string)
    ensures Normalize(desc) in TRANSLATIONS ==> r == TRANSLATIONS[Normalize(desc)]
    ensures Normalize(desc) !in TRANSLATIONS ==> r == desc
  {
    TranslationsNonEmpty();
    var key := Normalize(desc);
    if key in TRANSLATIONS && TRANSLATIONS[key] != "" then TRANSLATIONS[key] else desc
  }

  /**
   * The lookup ignores case and surrounding white space: a description that
   * differs from a known one only in letter case and padding translates the same.
   */
  lemma TranslationIgnoresCaseAndPadding(desc: string, variant: string, w1: string, w2: string)
    requires Lower(variant) == Lower(desc) && AllSpace(w1) && AllSpace(w2)
    ensures Normalize(w1 + variant + w2) == Normalize(desc)
  {
    LowerAppend(w1 + variant, w2);
    LowerAppend(w1, variant);
    LowerOfSpace(w1);
    LowerOfSpace(w2);
    TrimPadded(w1, Lower(desc), w2);
  }

  ghost predicate NonEmptyValues(m: map<string, string>) {
    forall k :: k in m ==> m[k] != ""
  }

  lemma Translations1NonEmpty()
    ensures NonEmptyValues(TRANSLATIONS_1)
  {
    forall k | k in TRANSLATIONS_1 ensures TRANSLATIONS_1[k] != "" {
      assert k in {"clear sky", "few clouds", "scattered clouds", "broken clouds", "overcast clouds", "shower rain", "light rain", "moderate rain", "heavy intensity rain", "very heavy rain", "extreme rain", "freezing rain", "light intensity shower rain", "heavy intensity shower rain", "ragged shower rain", "thunderstorm", "thunderstorm with light rain", "thunderstorm with rain", "thunderstorm with heavy rain", "light thunderstorm", "heavy thunderstorm", "ragged thunderstorm"};
    }
  }

  lemma Translations2NonEmpty()
    ensures NonEmptyValues(TRANSLATIONS_2)
  {
    forall k | k in TRANSLATIONS_2 ensures TRANSLATIONS_2[k] != "" {
      assert k in {"snow", "light snow", "heavy snow", "sleet", "light shower sleet", "shower sleet", "light rain and snow", "rain and snow", "light shower snow", "shower snow", "heavy shower snow", "mist", "smoke", "haze", "sand/dust whirls", "fog", "sand", "dust", "volcanic ash", "squalls", "tornado"};
    }
  }

  lemma UnionNonEmpty(a: map<string, string>, b: map<string, string>)
    requires NonEmptyValues(a) && NonEmptyValues(b)
    ensures NonEmptyValues(a + b)
  {
  }

  /** No Polish wording is empty, so a known key never falls back to the input. */
  lemma TranslationsNonEmpty()
    ensures NonEmptyValues(TRANSLATIONS)
  {
    Translations1NonEmpty();
    Translations2NonEmpty();
    UnionNonEmpty(TRANSLATIONS_1, TRANSLATIONS_2);
  }

  /** Descriptions with the same lookup key translate alike when the key is known. */
  lemma SameKeySameTranslation(a: string, b: string)
    requires Normalize(a) == Normalize(b) && Normalize(a) in TRANSLATIONS
    ensures TranslateWeatherDescription(a) == TranslateWeatherDescription(b) == TRANSLATIONS[Normalize(a)]
  {
  }

  // ------------------------------------------------------------ forecast

  datatype Condition = Condition(description: string, icon: string)

  /** One day of `/forecast/daily`; temperatures are already rounded to whole degrees. */
  datatype DailyForecast = DailyForecast(dt: int, tempDay: int, tempMin: int, tempMax: int, weather: seq<Condition>)

  /** `weather:${destination}:${date}`. */
  function WeatherKey(destination: string, date: string): string {
    "weather:" + destination + ":" + date
  }

  /** Keys of destinations without a colon identify the destination and the date. */
  lemma WeatherKeyInjective(d1: string, x1: string, d2: string, x2: string)
    requires ':' !in d1 && ':' !in d2
    requires WeatherKey(d1, x1) == WeatherKey(d2, x2)
    ensures d1 == d2 && x1 == x2
  {
    var p := "weather:";
    assert WeatherKey(d1, x1)[|p|..] == d1 + [':'] + x1;
    assert WeatherKey(d2, x2)[|p|..] == d2 + [':'] + x2;
    SplitCons(d1, ':', x1);
    SplitCons(d2, ':', x2);
    assert (d1 + [':'] + x1)[|d1| + 1..] == x1;
    assert (d2 + [':'] + x2)[|d2| + 1..] == x2;
  }

  /**
   * `list.find(day => format(new Date(day.dt * 1000), 'yyyy-MM-dd') === date)`,
   * with `dayOf` standing for the formatting in the server's time zone: the
   * position of the first day whose string equals `date` exactly.
   */
  function FindForecast(list: seq<DailyForecast>, date: string, dayOf: int -> string): (r: Option<nat>)
    ensures r.Some? ==> r.value < |list| && dayOf(list[r.value].dt) == date
    ensures r.Some? ==> forall j :: 0 <= j < r.value ==> dayOf(list[j].dt) != date
    ensures r.None? ==> forall j :: 0 <= j < |list| ==> dayOf(list[j].dt) != date
  {
    if list == [] then None
    else if dayOf(list[0].dt) == date then Some(0)
    else match FindForecast(list[1..], date, dayOf)
         case None => None
         case Some(i) => Some(i + 1)
  }

  /**
   * When the day strings are all `yyyy-MM-dd` (ten characters), a date of any
   * other length, such as a timestamp from a flight offer, never matches.
   */
  lemma TimestampNeverMatches(list: seq<DailyForecast>, date: string, dayOf: int -> string)
    requires forall t :: |dayOf(t)| == 10
    requires |date| != 10
    ensures FindForecast(list, date, dayOf).None?
  {
  }

  /**
   * The record built from a matched day; `None` when the day has no
   * condition (reading `weather[0].description` throws).
   */
  function ToWeatherData(destination: string, date: string, day: DailyForecast): (r: Option<WeatherData>)
    ensures r.Some? <==> |day.weather| > 0
    ensures r.Some? ==> r.value.destination == destination && r.value.date == date
                        && r.value.description == TranslateWeatherDescription(day.weather[0].description)
                        && r.value.icon == day.weather[0].icon
    ensures r.Some? ==> r.value.temperatureAvg == day.tempDay
                        && r.value.temperatureMin == day.tempMin && r.value.temperatureMax == day.tempMax
  {
    if day.weather == [] then None
    else Some(WeatherData(destination, date, day.tempDay, day.tempMin, day.tempMax,
                          TranslateWeatherDescription(day.weather[0].description), day.weather[0].icon))
  }

  /**
   * What a cache miss produces. `fetch` is the HTTP call: `None` when it throws,
   * `Some(None)` when the response has no `list`.
   */
  function FreshForecast(destination: string, date: string,
                         fetch: Coordinates -> Option<Option<seq<DailyForecast>>>, dayOf: int -> string): (r: Option<WeatherData>)
    ensures Utils.GetCoordinates(destination) == Utils.ZERO ==> r.None?
    ensures r.Some? ==> r.value.destination == destination && r.value.date == date
                        && destination in Utils.IATA_TO_COORDS
    // a failed call, or a response without a list, gives null
    ensures Utils.GetCoordinates(destination) != Utils.ZERO
            && (fetch(Utils.GetCoordinates(destination)).None? || fetch(Utils.GetCoordinates(destination)) == Some(None)) ==>
              r.None?
    // otherwise the first day whose string is `date` is the forecast, and no such day gives null
    ensures Utils.GetCoordinates(destination) != Utils.ZERO
            && fetch(Utils.GetCoordinates(destination)).Some? && fetch(Utils.GetCoordinates(destination)).value.Some? ==>
              var list := fetch(Utils.GetCoordinates(destination)).value.value;
              match FindForecast(list, date, dayOf)
              case None => r.None?
              case Some(i) => r == ToWeatherData(destination, date, list[i])
  {
    var coords := Utils.GetCoordinates(destination);
    if coords.lat == 0 && coords.lon == 0 then None
    else
      match fetch(coords)
      case None => None
      case Some(None) => None
      case Some(Some(list)) =>
        match FindForecast(list, date, dayOf)
        case None => None
        case Some(i) => ToWeatherData(destination, date, list[i])
  }

  /** Every cached forecast sits under its own key and belongs to an airport with coordinates. */
  ghost predicate CachedForecastsValid(entries: map<string, WeatherData>) {
    forall k :: k in entries ==>
      k == WeatherKey(entries[k].destination, entries[k].date) && entries[k].destination in Utils.IATA_TO_COORDS
  }

  /** With valid entries, a hit for a colon-free destination echoes the requested destination and date. */
  lemma CachedForecastMatches(entries: map<string, WeatherData>, destination: string, date: string)
    requires CachedForecastsValid(entries) && ':' !in destination
    requires WeatherKey(destination, date) in entries
    ensures entries[WeatherKey(destination, date)].destination == destination
    ensures entries[WeatherKey(destination, date)].date == date
  {
    var v := entries[WeatherKey(destination, date)];
    Utils.CoordinatesKeysAreCodes(v.destination);
    assert ':' !in v.destination;
    WeatherKeyInjective(v.destination, v.date, destination, date);
  }

  lemma StoreForecastKeepsValid(entries: map<string, WeatherData>, w: WeatherData)
    requires CachedForecastsValid(entries) && w.destination in Utils.IATA_TO_COORDS
    ensures CachedForecastsValid(entries[WeatherKey(w.destination, w.date) := w])
  {
  }

  /**
   * `getWeatherForecast`: a hit returns the cached record without a provider
   * call; a miss returns the fresh record (or `null`) and caches only a record.
   * Read and write failures are swallowed.
   */
  method GetWeatherForecast(destination: string, date: string, store: Store<string, WeatherData>,
                            fetch: Coordinates -> Option<Option<seq<DailyForecast>>>, dayOf: int -> string,
                            readOk: bool, writeOk: bool)
    returns (r: Option<WeatherData>)
    modifies store
    ensures readOk && WeatherKey(destination, date) in old(store.entries) ==>
              r == Some(old(store.entries)[WeatherKey(destination, date)]) && store.entries == old(store.entries)
    ensures !(readOk && WeatherKey(destination, date) in old(store.entries)) ==>
              r == FreshForecast(destination, date, fetch, dayOf)
              && store.entries == if r.Some? && writeOk then old(store.entries)[WeatherKey(destination, date) := r.value]
                                  else old(store.entries)
    ensures CachedForecastsValid(old(store.entries)) ==> CachedForecastsValid(store.entries)
    ensures CachedForecastsValid(old(store.entries)) && ':' !in destination && r.Some? ==>
              r.value.destination == destination && r.value.date == date
  {
    var key := WeatherKey(destination, date);
    var cached := store.Get(key, readOk);
    if cached.Some? {
      if CachedForecastsValid(store.entries) && ':' !in destination {
        CachedForecastMatches(store.entries, destination, date);
      }
      return cached;
    }
    r := FreshForecast(destination, date, fetch, dayOf);
    if r.Some? {
      if CachedForecastsValid(store.entries) {
        StoreForecastKeepsValid(store.entries, r.value);
      }
      store.SetEx(key, r.value, writeOk);
    }
  }
}
