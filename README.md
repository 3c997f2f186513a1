# Flightchat core in Dafny

Flightchat is a Polish-language travel assistant. A user chats with a language model. The
model extracts flight search parameters, the server searches flights through Amadeus (or a
mock generator when no client is configured), and each found flight is enriched with
attractions (OpenTripMap), a weather forecast (OpenWeather) and airport transport from a
static table. This project models the server-side core and proves what it promises:

- the flight search pipeline: cache-aside read, provider or mock branch, normalisation of
  provider records, price, arrival-time and direct-only filters, a stable sort by price,
  truncation and the cache write;
- the two HTTP handlers that orchestrate the search (`/api/destinations` and `/api/chat`),
  including fence stripping of the model's JSON, parameter defaults and the error-to-status
  mapping;
- the weather and attractions adapters, with their caches, the zero-coordinate guard, date
  matching, description translation and per-item fallbacks;
- the static lookups: airport transport, IATA city names and coordinates, the API date
  format, weather icon classification and the day difference;
- the client-side conversation store: a class whose actions update the conversation list
  and the current conversation id;
- the price analytics: generated history, trend, statistics, the "good deal" percentile and
  the seven-day projection;
- the city image lookup and the destination hue hash;
- the colour palette lookup and the `#RRGGBB` to `rgba(...)` conversion;
- the Stripe webhook: its configuration and signature guards, and the event-driven updates
  of the users table.

Every remote service is a function-typed parameter: Amadeus, OpenWeather, OpenTripMap,
Anthropic, Stripe's `constructEvent`, and Clerk's session. A failing call is a value
(`Option`, `Call` or `Settled`), never an exception. Each Redis key space is a `Cache.Store`
object whose `entries` map the methods update. A read or write failure is a boolean
parameter. `Promise.all` is an order-preserving map over a sequence. Prices are whole
numbers. `Math.round` of a quotient is modelled as exact rounding half up of the rational
value, and a division by zero gives the floating-point infinities and NaN. The source
rounds a double, which can differ at exact halves (see "## Left out").

Modules follow the source files:

| module | source file |
|---|---|
| `Amadeus` | lib/amadeus.ts |
| `DestinationsRoute`, `Enrichment` | app/api/destinations/route.ts (`Enrichment` is the per-flight assembly shared with the chat handler) |
| `ChatRoute` | app/api/chat/route.ts |
| `OpenWeather` | lib/openweather.ts |
| `OpenTripMap` | lib/opentripmap.ts |
| `Transport` | lib/transport.ts |
| `Utils` | lib/utils.ts |
| `ChatStore` | store/chat-store.ts |
| `PriceData` | lib/mock-price-data.ts |
| `PlaceholderImages` | lib/placeholder-images.ts |
| `DesignTokens` | lib/design-tokens.ts |
| `StripeWebhook` | app/api/webhooks/stripe/route.ts |
| `Types` | lib/types.ts (records only) |
| `Cache` | one Redis key space |
| `JsText`, `Seqs`, `Wrappers` | JavaScript string and array semantics, `Option` |

The attractions cache stores the filtered list built from the first `limit` places
(lib/opentripmap.ts:69-110).

## Model

| member | source | states |
|---|---|---|
| Amadeus.FormatOffer | lib/amadeus.ts:183-208 | A provider offer keeps its id, total and currency. Its destination is the arrival code of the first outbound segment, with that code's city name. Its stops are the outbound segment count minus one. |
| Amadeus.FormattedDirectIffOneSegment | lib/amadeus.ts:202 | A formatted offer has zero stops exactly when its outbound itinerary has one segment. |
| Amadeus.FormatAll | lib/amadeus.ts:186-207 | Formatting succeeds iff every record has the fields the formatter reads. It then maps record i to `FormatOffer` of record i. |
| Amadeus.FormatFlightOffers | lib/amadeus.ts:183-208 | A missing `data` gives `[]`; otherwise one offer per record, in order. |
| Amadeus.FormatDestinationsFrom | lib/amadeus.ts:216-224 | Each inspiration record maps to one offer, in order. |
| Amadeus.FormatInspirationalFlights | lib/amadeus.ts:213-225 | Item i gets id `inspiration-<i>`, the record's destination, the request's departure date, no stops, and a price of 0 when the record has none. The list has one item per record. |
| Amadeus.InspirationIdsDistinct | lib/amadeus.ts:216-217 | Inspiration offers have pairwise distinct ids. |
| Amadeus.GenerateMockFlights | lib/amadeus.ts:103-130 | With a destination: exactly one offer to it. Without one: BCN, LIS, ROM, PAR, LON. Offer i costs 300 + 50·i PLN, is direct, and departs on the requested date. |
| Amadeus.SearchSpecificDestination | lib/amadeus.ts:135-156 | With no client, the mock flights. With a client, a provider failure is a failure; otherwise the provider's offers are formatted. |
| Amadeus.SearchInspirationFlights | lib/amadeus.ts:161-178 | The same three cases for the inspiration search, with its formatter. |
| Amadeus.MockAnywhereQuirk | lib/amadeus.ts:65-70 | With no client, destination "anywhere" takes the inspiration branch. Its mock generator sees a truthy destination, so the search yields one offer whose destination is literally "anywhere". |
| Amadeus.Ranked | lib/amadeus.ts:230-265 | The reference result of `applyFilters`: ascending by price, and a permutation of the offers that pass every active filter. |
| Amadeus.RankedProperties | lib/amadeus.ts:230-265 | The filtered list is sorted by price. It is a sub-multiset of the input. It keeps exactly the offers that pass every active filter, and offers of equal price stay in input order (stable sort). |
| Amadeus.FilterStep | lib/amadeus.ts:234-259 | Applying one more conditional filter to a filtered list equals filtering the original list by the conjunction. |
| JsText.NumberOf | lib/amadeus.ts:240 | `Number(s)` of an hour or minute field: a value exactly for space-padded digit runs, 0 for the blank string. The value is the digits read positionally, so "09" is 9. Without a leading zero the digits are the value's rendering. |
| Amadeus.ApplyFilters | lib/amadeus.ts:230-265 | The step-by-step method computes the ranked list: sorted by price, a sub-multiset of the input, and containing an input offer iff it passes the price ceiling, the arrival ceiling (active only when the first offer has an arrival time) and the direct-only filter. |
| Amadeus.Fresh | lib/amadeus.ts:62-78 | What a miss computes: a failure exactly when the provider fails; otherwise a list sorted by price, no longer than a positive `maxResults` (or 10), drawn from the provider's offers. |
| Amadeus.FreshIsCheapest | lib/amadeus.ts:74-78 | A fresh result is a prefix of the ranked list. Its length is min(ranked length, `maxResults` or 10). Every returned offer is at most as expensive as every dropped one. |
| Amadeus.StoreKeepsValid | lib/amadeus.ts:81-88 | Writing a sorted list no longer than its key's limit keeps every cached list sorted and bounded. |
| Amadeus.FreshKeepsCacheValid | lib/amadeus.ts:80-88 | The list written on a miss is sorted and keeps the cache valid. |
| Amadeus.SearchFlights | lib/amadeus.ts:39-98 | A readable hit returns the cached list and leaves the cache alone. On a miss, a provider error gives `[]` and no write. Otherwise the filtered, sorted, truncated list is returned, and it is written under the request when the write succeeds. A valid cache stays valid and the answer is sorted. |
| Cache.Store.constructor | lib/openweather.ts:9-12 | An empty key space. |
| Cache.Store.Get | lib/amadeus.ts:47-57 | A readable present key gives its value; an unreadable store or a missing key gives nothing. |
| Cache.Store.SetEx | lib/amadeus.ts:81-88 | A successful write binds the key; a failed write changes nothing. |
| Enrichment.BuildDestination | app/api/destinations/route.ts:61-86 | A destination record copies its flight's code, name and price. Transport is the table entry for the code. A resolved attractions or weather lookup is carried over as it resolved; a failed attractions lookup gives `[]` and a failed weather lookup gives `null`. |
| Enrichment.Enrich | app/api/destinations/route.ts:60-87 | Record i is built from flight i, one per flight, in order. |
| DestinationsRoute.Status | app/api/destinations/route.ts:17-101 | The reply's HTTP status: 200 iff flights were searched, otherwise 400, 401 or 500. |
| DestinationsRoute.TopCount | app/api/destinations/route.ts:55 | `maxResults` when present and non-zero, otherwise 3. |
| DestinationsRoute.Post | app/api/destinations/route.ts:12-103 | No user gives 401. A missing origin or date gives 400 before any search. A failed search gives 500. No flights gives an empty 200. Otherwise the reply holds the first `TopCount` flights, enriched in order. |
| DestinationsRoute.FoundShape | app/api/destinations/route.ts:55-85 | With a positive count there are min(flights, count) destinations, and destination i is built from flight i with its price as the estimated cost. |
| DestinationsRoute.NegativeMaxResultsDropsFromEnd | app/api/destinations/route.ts:55-56 | `maxResults = -1` makes `slice(0, -1)` drop the last flight. |
| ChatRoute.FirstText | app/api/chat/route.ts:108 | The text of the first block of kind "text", or nothing when there is none. |
| ChatRoute.UserContent | app/api/chat/route.ts:93-96 | The last message's string content; for block content, the first block's text when it is non-empty and "" otherwise (no blocks, or no text); nothing for an empty history, where the handler throws. |
| ChatRoute.RemoveAll | app/api/chat/route.ts:126-127 | Removing a fence token and its optional newline never lengthens the text. |
| ChatRoute.StripFences | app/api/chat/route.ts:125-128 | The cleaned text is no longer than the input and has no leading or trailing white space. |
| ChatRoute.RemoveAllSkipsPlainText | app/api/chat/route.ts:126-127 | A prefix without backticks passes through fence removal unchanged. |
| ChatRoute.PlainTextOnlyTrimmed | app/api/chat/route.ts:125-128 | Text without backticks is only trimmed. |
| ChatRoute.FencedJsonIsUnwrapped | app/api/chat/route.ts:125-128 | A "```json" fenced block without inner backticks cleans to its trimmed body. |
| ChatRoute.Intent | app/api/chat/route.ts:130-139 | Text that is not JSON reads as `{needsSearch: false}`. A parsed object gives its fields. A parsed `null` is the one case where reading `needsSearch` throws. |
| ChatRoute.Understand | app/api/chat/route.ts:93-136 | The extraction of the last message: nothing for an empty history or a failed extraction call; otherwise the model's first text block (or "{}") is cleaned and parsed, unparsable text reads as no search, and only a parsed `null` gives nothing. |
| ChatRoute.IsoDatePart | app/api/chat/route.ts:181 | The part of an ISO timestamp before 'T' is its first ten characters. |
| ChatRoute.StringOrUndefined | app/api/chat/route.ts:205-211 | `s \|\| undefined`: present exactly when the string is non-empty, and then unchanged. |
| ChatRoute.NumberOrUndefined | app/api/chat/route.ts:208-209 | `n \|\| undefined`: present exactly when the number is non-zero, and then unchanged. |
| ChatRoute.ChatSearch | app/api/chat/route.ts:172-212 | The origin defaults to WAW and the date to next week's full date, so both are non-empty. Destination, return date and preferences are passed on exactly when non-empty; price and duration limits exactly when non-zero; no other filter is set. At most 5 results are asked for. |
| ChatRoute.ErrorStatus | app/api/chat/route.ts:307-325 | 402 iff status 400 with "credit balance" in the message; 401 iff 401; 429 iff 429; 503 iff 529 or 503; otherwise 500. |
| ChatRoute.OtherErrorsAreServerErrors | app/api/chat/route.ts:307-325 | Any other error is a 500. |
| ChatRoute.Failure | app/api/chat/route.ts:303-333 | An error reply has the mapped status, the matching apology and no destinations. |
| ChatRoute.SearchAndFormat | app/api/chat/route.ts:196-301 | No flights gives a 200 saying so. Otherwise at most 5 flights are enriched in order, each costing its fare, and the formatted answer comes with them. A failed search with a message gives a 200 naming the error; with an empty message the reply is formatted from no destinations. A failed formatting call maps through the status table. |
| ChatRoute.Answer | app/api/chat/route.ts:93-334 | From the message list on: an empty history or an extraction that parses to `null` gives the 500 reply, and a failed extraction call maps its error through the status table. Without a search, the conversation answer (or its fallback) with no destinations; with one, the search stage's reply. Every reply is well shaped. |
| ChatRoute.Post | app/api/chat/route.ts:74-334 | No user gives 401; a non-array `messages` gives 400; an unreadable body, an empty history or an extraction that parses to `null` gives the 500 reply; a failed extraction call maps its error through the status table. When no search is needed there are no destinations and the conversation answer (or its fallback) is the reply. When searching, the search stage decides the reply. Destinations appear only when non-empty, at most 5, each costing its fare. |
| OpenWeather.TranslateWeatherDescription | lib/openweather.ts:108-157 | The Polish translation of the lower-cased, trimmed description when the table has it; otherwise the input unchanged. |
| OpenWeather.TranslationIgnoresCaseAndPadding | lib/openweather.ts:155 | Case variants with surrounding white space normalise to the same key. |
| OpenWeather.TranslationsNonEmpty | lib/openweather.ts:109-153 | Every translation is non-empty, so `translations[k] \|\| desc` never falls back on a known key. |
| OpenWeather.SameKeySameTranslation | lib/openweather.ts:155-156 | Inputs with the same normalised key get the same translation. |
| OpenWeather.WeatherKeyInjective | lib/openweather.ts:27 | Distinct (destination, date) pairs get distinct cache keys when the destination has no ':'. |
| OpenWeather.FindForecast | lib/openweather.ts:68-71 | The index of the first entry whose formatted day equals the date exactly, or none when no entry matches. |
| OpenWeather.TimestampNeverMatches | lib/openweather.ts:67-76 | A date that is not ten characters long, such as a full timestamp, never matches a day string. |
| OpenWeather.ToWeatherData | lib/openweather.ts:78-86 | Defined iff the day has a weather entry. The record echoes destination and date, carries the day, minimum and maximum temperatures, and the translated description and icon of the first weather entry. |
| OpenWeather.FreshForecast | lib/openweather.ts:42-102 | Unknown coordinates give `null` without a provider call. A failed call or a response without a list gives `null`. Otherwise the result is the record built from the first day whose string equals the date, or `null` when no day does. A produced record echoes the destination and date, and that destination has coordinates. |
| OpenWeather.CachedForecastMatches | lib/openweather.ts:27-35 | In a valid cache, the entry under a key describes that destination and date. |
| OpenWeather.StoreForecastKeepsValid | lib/openweather.ts:88-90 | Writing a produced record keeps the cache valid. |
| OpenWeather.GetWeatherForecast | lib/openweather.ts:23-103 | A readable hit is returned with no provider call. On a miss the fresh result is returned and written only when it exists and the write succeeds; `null` is never cached. The cache stays valid. |
| OpenTripMap.Category | lib/opentripmap.ts:79 | The first comma-separated kind, or "attraction" when the kinds are missing or the first is empty. |
| OpenTripMap.CategoryIsFirstKind | lib/opentripmap.ts:79 | That category is the prefix of the kinds up to the first comma. |
| OpenTripMap.ToAttraction | lib/opentripmap.ts:70-102 | With details, the name is details, then place, then "Unknown". The description is the Wikipedia extract when non-empty, else the short description, and the links are the details' links. Without details, the basic record. The category, coordinates and rating come from the place. |
| OpenTripMap.ToAttractions | lib/opentripmap.ts:69-103 | One attraction per place, in order, each with its own details lookup. |
| OpenTripMap.FreshAttractions | lib/opentripmap.ts:41-122 | Unknown coordinates, a failed search and an empty response are three distinct outcomes. Otherwise the result is, in order, the attractions built from the first `limit` places (each with its details or its basic record) that have a name other than "" and "Unknown". There are never more than `limit` of them. |
| OpenTripMap.FailedDetailsDegrade | lib/opentripmap.ts:88-101 | A place among the first `limit` whose details fail is kept as its basic record, not dropped. |
| OpenTripMap.GetAttractions | lib/opentripmap.ts:22-123 | A readable hit returns the first `limit` cached entries. On a miss that finds places, the filtered list is written under the destination and its first `limit` entries are returned. Unknown coordinates, an empty response and a failed search return `[]` and leave the cache unchanged. Every path returns at most `limit` named attractions. |
| Transport.GetAirportTransport | lib/transport.ts:374-376 | The table entry for the code, or `null` for a code not in the table. |
| Transport.GetAvailableAirports | lib/transport.ts:379-381 | Exactly the table keys, without repetition. |
| Transport.TransportEntriesWellFormed | lib/transport.ts:6-371 | Each entry names its own airport code and has at least one option. |
| Transport.AvailableAirportsHaveTransport | lib/transport.ts:374-381 | A code is listed iff it has transport. |
| Transport.MockDestinationsTransport | lib/transport.ts:6-371 | BCN and LIS have transport; ROM, PAR and LON do not. |
| Utils.GetCityName | lib/utils.ts:117-119 | The city name for a known code; the code itself otherwise. |
| Utils.CityNamesAreNames | lib/utils.ts:11-115 | Every city name in the table is non-empty. |
| Utils.GetCityNameEchoesUnknown | lib/utils.ts:117-119 | The code is echoed iff it is unknown. |
| Utils.GetCoordinates | lib/utils.ts:147-149 | The table pair for a known code, (0, 0) otherwise. |
| Utils.ZeroCoordinatesMeanUnknown | lib/utils.ts:122-149 | The zero pair comes back iff the code is unknown, because no table entry is (0, 0). |
| Utils.CoordinatesHaveCityNames | lib/utils.ts:11-149 | Every code with coordinates is a valid code with a city name. |
| Utils.CoordinatesKeysAreCodes | lib/utils.ts:122-145 | Every coordinate key is three capital letters. |
| Utils.IsValidIataCode | lib/utils.ts:201-203 | `isValidIataCode` holds iff the code is a key of the city table, and such codes are three capitals. |
| Utils.Pad2 | lib/utils.ts:183-184 | A two-digit padding whose digits denote the number. |
| Utils.FormatDateForApi | lib/utils.ts:181-186 | The unpadded year, then '-', two digits of month, '-', two digits of day. |
| Utils.FormatDateRoundTrip | lib/utils.ts:181-186 | Parsing the formatted date gives back the calendar fields. |
| Utils.FormatDateIsFullDate | lib/utils.ts:181-186 | For years 1000 to 9999 the output is an RFC 3339 section 5.6 full-date. For earlier years it is not, since the year is not padded. |
| Utils.GetWeatherEmoji | lib/utils.ts:189-198 | The result is one of the eight emoji. |
| Utils.WeatherEmojiIsTableLookup | lib/utils.ts:189-198 | The prefix tests in order equal a lookup in the table of prefixes 01, 02, 03/04, 09/10, 11, 13, 50. |
| Utils.WeatherEmojiByCode | lib/utils.ts:189-198 | Only the first two characters of the icon matter. |
| Utils.DaysBetween | lib/utils.ts:214-219 | The ceiling of the absolute gap in days. |
| Utils.DaysBetweenSymmetric | lib/utils.ts:214-219 | Symmetric, and zero iff the instants are equal. |
| ChatStore.NewConversation | store/chat-store.ts:36-43 | A new conversation titled 'Nowa rozmowa', with no messages, an empty user id and both timestamps now. |
| ChatStore.WithMessage | store/chat-store.ts:66-76 | Same length and ids. Only conversations with the id change. They get the message appended at the end and a new update time, and keep their title, creation time and owner. |
| JsText.SliceUnits | store/chat-store.ts:87 | `slice(0, n)` in UTF-16 code units on whole characters: the longest prefix that fits in `n` units, and the whole string when it fits. |
| ChatStore.WithTitle | store/chat-store.ts:81-91 | Only conversations with the id change. They get the longest prefix of the title that fits in 50 UTF-16 code units (the whole title when it fits) and the new update time; messages, creation time and owner stay. |
| ChatStore.PlainTitleKeepsFifty | store/chat-store.ts:87 | A title without characters outside the Basic Multilingual Plane keeps exactly its first 50 characters. |
| ChatStore.Without | store/chat-store.ts:96-97 | No conversation with the id remains, every other conversation does, and nothing is added. The order of the rest is proved by `WithoutKeepsOrder` and `WithoutDropsMatch`. |
| ChatStore.WithoutKeepsOrder | store/chat-store.ts:97 | A conversation with another id stays where it was: removal works on each side of it separately, so the rest keep their order. |
| ChatStore.WithoutDropsMatch | store/chat-store.ts:97 | A conversation with the deleted id is removed and nothing else around it changes. |
| ChatStore.WithoutKeepsOthers | store/chat-store.ts:97 | Each other conversation keeps its multiplicity. |
| ChatStore.Find | store/chat-store.ts:112-115 | The first conversation whose id is the current id, or `null` when there is none or no current id. |
| ChatStore.Partialize | store/chat-store.ts:124-128 | The snapshot holds the current id and a prefix of the conversations: all of them when there are at most 50, exactly the first 50 otherwise. |
| ChatStore.CreatedIsCurrent | store/chat-store.ts:45-48 | A created conversation is found as the current one. |
| ChatStore.DeletedIsGone | store/chat-store.ts:95-101 | A deleted id is never found. |
| ChatStore.AddedMessageIsLast | store/chat-store.ts:59-77 | After adding, the found conversation's messages are the old ones plus the new message. |
| ChatStore.Store.constructor | store/chat-store.ts:28-31 | No conversations, no current id, not hydrated. |
| ChatStore.Store.CreateConversation | store/chat-store.ts:34-51 | Prepends one new conversation, makes it current and returns its id. |
| ChatStore.Store.SetCurrentConversation | store/chat-store.ts:54-56 | Sets the current id without checking that it exists. |
| ChatStore.Store.AddMessage | store/chat-store.ts:59-77 | The list becomes `WithMessage` of the old one; nothing else changes. |
| ChatStore.Store.UpdateConversationTitle | store/chat-store.ts:80-92 | The list becomes `WithTitle` of the old one. |
| ChatStore.Store.DeleteConversation | store/chat-store.ts:95-101 | The list becomes `Without` of the old one, so the other conversations stay in order. The current id is cleared iff it was the deleted one. |
| ChatStore.Store.ClearAll | store/chat-store.ts:104-109 | Empty list, no current id. |
| ChatStore.Store.GetCurrentConversation | store/chat-store.ts:112-115 | The first conversation in the list with the current id, as `find` gives, or `null` iff none matches. |
| ChatStore.Store.SetHasHydrated | store/chat-store.ts:118-120 | Sets only the hydration flag. |
| ChatStore.Store.Persisted | store/chat-store.ts:124-128 | The persisted state is `Partialize` of the list and the current id: at most 50 conversations, with the current id. |
| PriceData.Prices | lib/mock-price-data.ts:106 | The price of every point, in order. |
| PriceData.RoundDiv | lib/mock-price-data.ts:73 | `Math.round(a / b)`: the integer nearest a/b, with halves rounded up. |
| PriceData.Ratio | lib/mock-price-data.ts:73 | The rounded percentage, rounded half up on the exact ratio (see "## Left out" for the double product). A zero denominator gives +∞, −∞ or NaN by the sign of the numerator. |
| PriceData.GetPriceTrend | lib/mock-price-data.ts:53-95 | Under 7 points: stable, 0, 0 and "Za mało danych". Otherwise the change is the last price minus the price six points earlier. Up iff the percentage exceeds 5; down iff it is below −5. Each verdict comes with its own recommendation text. |
| PriceData.TrendThresholds | lib/mock-price-data.ts:73-83 | With a positive start price, up iff 200·change ≥ 11·start and down iff 200·change < −11·start. |
| PriceData.Min | lib/mock-price-data.ts:109 | An element no greater than any other. |
| PriceData.Max | lib/mock-price-data.ts:110 | An element no less than any other. |
| PriceData.GetPriceStats | lib/mock-price-data.ts:100-114 | Defined iff the history is non-empty. Then min and max are prices bounding all prices, avg is the sum of the prices over their count rounded half up, min ≤ avg ≤ max, and current is the last price. |
| PriceData.FirstAtLeast | lib/mock-price-data.ts:128 | The first index whose price is ≥ the current price, or −1 when there is none. |
| PriceData.Sorted | lib/mock-price-data.ts:125 | An ascending permutation of the prices. |
| PriceData.IsGoodDeal | lib/mock-price-data.ts:119-150 | The percentile is round(100·position/n). It is a good deal (the great-price verdict) iff the percentile is ≤ 25; the good-price verdict covers (25, 50], the average one (50, 75], and the high one anything else. |
| PriceData.PercentileCountsCheaper | lib/mock-price-data.ts:124-129 | When some price reaches the current one, the position is the number of cheaper prices. |
| PriceData.AboveAllIsGoodDeal | lib/mock-price-data.ts:128-136 | A price above all history gets position −1, so it counts as a good deal. |
| PriceData.CheapestIsGoodDeal | lib/mock-price-data.ts:128-136 | A price at or below all history has percentile 0 and is a good deal. |
| PriceData.GeneratePriceHistory | lib/mock-price-data.ts:14-48 | `days` points, oldest first, dated `days-1` … 0 days ago. The last point is the current price, so its statistics report it as current. Nothing is produced for `days` ≤ 0, where the source fails. |
| PriceData.LinearWeekContinues | lib/mock-price-data.ts:160-180 | The least-squares projection of a linear week continues the line. |
| PriceData.PredictPrices | lib/mock-price-data.ts:155-190 | `[]` under 7 points, otherwise 7 points for the next 7 days, each the rounded projection of the last week. |
| PlaceholderImages.GetCityImage | lib/placeholder-images.ts:110-128 | The result is always the URL of a table photo or the default image. |
| PlaceholderImages.KeyIndex | lib/placeholder-images.ts:112-114 | The first table position whose key equals the destination, or −1. |
| PlaceholderImages.KeyIndexIgnoringCase | lib/placeholder-images.ts:117-124 | The first table position whose lower-cased key equals the lower-cased name, or −1. |
| PlaceholderImages.PhotoFor | lib/placeholder-images.ts:110-128 | Always a table photo or the default. |
| PlaceholderImages.ExactKeyWins | lib/placeholder-images.ts:112-114 | An exact key match gives its photo. |
| PlaceholderImages.LooseKeyNext | lib/placeholder-images.ts:117-124 | Otherwise the first key equal, ignoring case, to the trimmed input gives its photo. |
| PlaceholderImages.NoKeyGivesDefault | lib/placeholder-images.ts:127 | Otherwise the default image. |
| PlaceholderImages.LeadingDigits | lib/placeholder-images.ts:143 | The digit prefix of a string. |
| PlaceholderImages.PicsumId | lib/placeholder-images.ts:143 | The `(\d+)` after "id/", when present, is a non-empty run of digits. |
| PlaceholderImages.UrlNeverPicsum | lib/placeholder-images.ts:10-103 | No image URL of the table or the default contains "picsum.photos". |
| PlaceholderImages.GetCityImageOptimized | lib/placeholder-images.ts:133-148 | Since no table URL is a Picsum URL, `getCityImageOptimized` always equals `getCityImage`, whatever the width and height. |
| PlaceholderImages.Int32 | lib/placeholder-images.ts:170 | The 32-bit two's complement wrap of an integer. |
| JsText.Utf16 | lib/placeholder-images.ts:169-170 | The UTF-16 code units `charCodeAt` reads, each below 2^16. |
| PlaceholderImages.HashStep | lib/placeholder-images.ts:170 | `(hash << 5) - hash + code`: the shifted term is a 32-bit integer congruent to 32·hash modulo 2^32. |
| PlaceholderImages.Hash | lib/placeholder-images.ts:168-171 | The left fold of the step from 0: the empty string hashes to 0 and a single code unit to itself. |
| PlaceholderImages.Hue | lib/placeholder-images.ts:173 | `Math.abs(hash % 360)`: in 0..359 and congruent to ±hash with JavaScript's truncating `%`. |
| PlaceholderImages.DestinationHue | lib/placeholder-images.ts:166-173 | The loop computes the hue of the left-fold hash of the code units, and it lies in 0..359. |
| DesignTokens.Entry | lib/design-tokens.ts:4-53 | The value of the first entry with the key, or none iff no entry has it. |
| DesignTokens.WalkFromFront | lib/design-tokens.ts:242-245 | The loop's value after a path is the member after the first part, then the rest; a falsy value stops it. |
| DesignTokens.WalkStaysFailed | lib/design-tokens.ts:244 | Once a prefix fails, the whole path fails. |
| DesignTokens.MissingSegmentGivesBlack | lib/design-tokens.ts:243-244 | A missing or falsy segment anywhere on the path gives '#000000'. |
| DesignTokens.OceanFiveHundred | lib/design-tokens.ts:238-247 | `getColor('ocean.500')` is '#3B82F6'. |
| DesignTokens.UnknownNameGivesBlack | lib/design-tokens.ts:238-247 | `getColor('purple')` is '#000000'. |
| DesignTokens.GetColor | lib/design-tokens.ts:238-248 | The loop returns the palette value reached by the path, or '#000000'. |
| DesignTokens.LeadingHex | lib/design-tokens.ts:253-255 | The longest hexadecimal prefix. |
| DesignTokens.ParseHex | lib/design-tokens.ts:253-255 | `parseInt(s, 16)` is NaN or the signed value of a non-empty hexadecimal digit string. |
| DesignTokens.IndexOf | lib/design-tokens.ts:252 | The first position of the character, or −1 iff it is absent. |
| DesignTokens.RemoveFirst | lib/design-tokens.ts:252 | `replace('#', '')` removes only the first '#'. |
| DesignTokens.Substring | lib/design-tokens.ts:253-255 | Clamped `substring`; inside the string it is the slice. |
| DesignTokens.ParsePair | lib/design-tokens.ts:253-255 | Two hex digits parse to their value in 0..255. |
| DesignTokens.HexColorChannels | lib/design-tokens.ts:252-255 | For `#RRGGBB`, r, g and b are the values of the three pairs. |
| DesignTokens.WithOpacity | lib/design-tokens.ts:250-258 | For `#RRGGBB`, the output is `rgba(r, g, b, opacity)` with r, g, b the decimal values of the three hex pairs. |
| DesignTokens.HexByte | lib/design-tokens.ts:253-255 | Re-encoding a channel gives two hex digits denoting it. |
| DesignTokens.HexRoundTrip | lib/design-tokens.ts:250-258 | Re-encoding the parsed channels of an upper-case `#RRGGBB` gives back the input. |
| DesignTokens.SecondHashIsKept | lib/design-tokens.ts:252-253 | Only the first '#' is removed, so `##RRGGBB` gives a NaN red channel. |
| StripeWebhook.Status | app/api/webhooks/stripe/route.ts:21-132 | 200 iff the event was received; 503 iff Stripe or the secret is not configured; otherwise 400. |
| StripeWebhook.SetSubscription | app/api/webhooks/stripe/route.ts:58-66 | Rows of the customer get the status, tier 'weekly', the subscription id and the update time; other rows are unchanged. |
| StripeWebhook.SetStatusOfCustomer | app/api/webhooks/stripe/route.ts:77-83 | Rows of the customer get the status and the time; other rows are unchanged. |
| StripeWebhook.SetStatusOfSubscription | app/api/webhooks/stripe/route.ts:95-120 | Rows of the subscription get the status and the time; other rows are unchanged. |
| StripeWebhook.SubscriptionEventUpdatesCustomerRows | app/api/webhooks/stripe/route.ts:51-69 | A created or updated subscription sets status, tier and subscription id on the customer's rows only. |
| StripeWebhook.DeletedSubscriptionCancels | app/api/webhooks/stripe/route.ts:71-86 | A deleted subscription sets 'cancelled' on the customer's rows only. |
| StripeWebhook.InvoiceEventSetsStatus | app/api/webhooks/stripe/route.ts:88-126 | A paid invoice sets 'active' and a failed one 'past_due' on the subscription's rows only. |
| StripeWebhook.OtherEventsChangeNothing | app/api/webhooks/stripe/route.ts:88-129 | Other event types, and invoices without a subscription, change nothing. |
| StripeWebhook.Apply | app/api/webhooks/stripe/route.ts:50-130 | The `switch` over the event type applied to the table: no event changes a row's id or customer id, or the number of rows. |
| StripeWebhook.RedeliveryIsHarmless | app/api/webhooks/stripe/route.ts:50-130 | Applying the same event twice equals applying it once. |
| StripeWebhook.UsersTable.constructor | app/api/webhooks/stripe/route.ts:58-59 | A table holding the given rows. |
| StripeWebhook.UsersTable.UpdateSubscription | app/api/webhooks/stripe/route.ts:58-66 | The rows become `SetSubscription` of the old rows. |
| StripeWebhook.UsersTable.UpdateStatusOfCustomer | app/api/webhooks/stripe/route.ts:77-83 | The rows become `SetStatusOfCustomer` of the old rows. |
| StripeWebhook.UsersTable.UpdateStatusOfSubscription | app/api/webhooks/stripe/route.ts:95-120 | The rows become `SetStatusOfSubscription` of the old rows. |
| StripeWebhook.Post | app/api/webhooks/stripe/route.ts:19-140 | A missing client or secret gives 503 and a missing or invalid signature gives 400, each with no table change. A verified event is received and the table becomes `Apply` of the old rows. |

## Left out

- Redis TTLs (30 minutes for flights, 12 hours for weather, 7 days for attractions): entries never expire here, because expiry depends on wall-clock time.
- Network, SDK and database calls are parameters: Amadeus, OpenWeather, OpenTripMap, Anthropic, Stripe `constructEvent`, Supabase and Clerk `auth()`. The lazily constructed Stripe and Amadeus clients are a plain present/absent parameter.
- Supabase `update` errors are not inspected by the webhook, so the model applies every update.
- The webhook's 500 catch path (app/api/webhooks/stripe/route.ts:133-139) is not modelled, because with calls as parameters nothing in the handler throws.
- A Stripe customer given as an expanded object (`subscription.customer as string`) is treated as its id.
- The `updated_at`, `createdAt` and message timestamps, and the `nanoid` ids, are parameters. So are "next week" in the chat handler and the dates of generated and predicted prices.
- Console logging, in every file.
- PriceData.Ratio: the source rounds the double `(change / oldPrice) * 100`, whose product can fall just below an exact half (23/40·100 is 57.49999999999999 in doubles), so the source's `changePercent` can be one lower than the model's exact `RoundDiv(100·change, oldPrice)` (57 against 58 for old price 40 and new price 63). Doubles are not modelled.
- PriceData.IsGoodDeal: the percentile `Math.round((position / n) * 100)` has the same double-rounding difference; with 23 of 40 prices below the current one the source reports 57 where the model reports 58.
- JsText.NumberOf: only space-padded runs of decimal digits (and the blank string) are read as numbers. The other forms JavaScript's `Number` accepts (a sign, a fraction, an exponent, `0x`/`0o`/`0b` prefixes, `Infinity`) are read as NaN, so with such a `maxArrivalTime` the model's arrival filter drops every offer with an arrival time, where the source compares against the parsed value.
- ChatStore.WithTitle: when the 50th UTF-16 code unit is the first half of a surrogate pair, `slice` keeps that lone half; a Dafny string cannot hold it, so the model stops before the whole character.
- `JSON.stringify(params)` as the flights cache key: the key is the request record itself, i.e. the stringification is taken to be injective.
- Floating point:
  - `parseFloat` of provider prices: prices are integers.
  - `Math.round` of temperatures: temperatures are carried over as given.
  - The sine and random factors of `generatePriceHistory`: a price-per-day parameter.
  - `predictPrices` is computed in exact rationals, then rounded.
- PlaceholderImages.Hue: the source's `hash` is a double. Values beyond 2^53 lose precision there, and the model keeps them exact.
- The CSS gradient string of `getDestinationGradient`, and `preloadCityImage` (a browser `Image`).
- The rendering of `width`/`height` in the Picsum URL: that branch is unreachable, as the contract of PlaceholderImages.GetCityImageOptimized shows.
- DesignTokens.WithOpacity takes the opacity already rendered as text. JavaScript's number-to-string conversion is not modelled.
- DesignTokens.Member: a path segment applied to a string value (an index, `length`) is treated as missing, not as the character or number JavaScript would return.
- Prototype-inherited keys (`toString`, `constructor`, `__proto__`) are not modelled in the lookups of `cityImages`, the IATA tables, the transport table, the translation table and the palette. Only own keys are looked up.
- JsText.Lower covers ASCII, Latin-1 and Latin Extended-A, not all of Unicode case mapping.
- The chat handler's "missing parameters" reply (app/api/chat/route.ts:185-193) cannot be reached after the defaults, as ChatRoute.ChatSearch shows, so it has no member.
- The per-flight catch of the chat enrichment (app/api/chat/route.ts:245-256) and the `.catch` fallbacks there cannot fire: both adapters catch every error themselves. The destinations handler keeps its `.catch` degradation through `Settled`.
- ChatRoute.Post: the contents of the Anthropic prompts and the Polish reply texts are abstracted to cases (`ChatContent`).
- `formatDate`, `formatCurrency`, `isValidFutureDate` and `cn` in lib/utils.ts: locale, clock and CSS helpers.
- Utils.DaysBetween works on millisecond instants. Parsing date strings with `new Date` is not modelled.
- OpenWeather: the date-fns `format` of forecast timestamps is an opaque day-string parameter (`dayOf`), since it depends on the time zone.
- `persist` middleware storage (localStorage) and rehydration timing: only the snapshot `partialize` builds, and the hydration flag, are modelled.
- components/, lib/claude.ts and the other UI files are not part of this model.
