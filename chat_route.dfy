/**
 * The chat handler of `app/api/chat/route.ts`: authentication, the request
 * check, parameter extraction by the language model (with code fences
 * stripped and a parse failure read as "just chatting"), the defaults for
 * origin and date, the flight search, enrichment of at most five flights,
 * the formatted reply and the mapping of provider errors to status codes.
 *
 * The session, the body parse, `JSON.parse`, the clock and every remote call
 * are parameters; each model call returns the content blocks of its answer.
 */
module ChatRoute {
  import opened Wrappers
  import opened JsText
  import opened Types
  import opened Enrichment
  import Utils

  // ---------------------------------------------------------------- inputs

  /** A content block of a model answer or of a message (`type` is `kind`). */
  datatype Block = Block(kind: string, text: Option<string>)

  /** Message content: a plain string or an array of blocks. */
  datatype Content = TextContent(text: string) | BlockContent(blocks: seq<Block>)

  datatype ChatMessage = ChatMessage(role: Role, content: Content)

  /** The `messages` member of the request body. */
  datatype MessagesField = Absent | NotAnArray | Messages(items: seq<ChatMessage>)

  /**
   * What a failed call throws: the provider's HTTP status when it has one, and
   * the message of an `Error` (`None` for anything thrown that is not one).
   */
  datatype ApiError = ApiError(status: Option<int>, message: Option<string>)

  /** A remote call: its answer, or what it threw. */
  datatype Call<T> = Ok(value: T) | Fail(error: ApiError)

  /** A `TypeError` or `SyntaxError` raised by the handler itself. */
  const INTERNAL: ApiError := ApiError(None, Some("internal"))

  /** The members of the extracted JSON the handler reads; a falsy `needsSearch` is `false`. */
  datatype Extracted = Extracted(
    origin: Option<string>,
    destination: Option<string>,
    departureDate: Option<string>,
    returnDate: Option<string>,
    maxPrice: Option<int>,
    maxDuration: Option<int>,
    preferences: Option<string>,
    needsSearch: bool)

  /**
   * `JSON.parse` of the cleaned text: a syntax error, the literal `null`, or
   * anything else (a value that is not an object reads as one with no members).
   */
  datatype Parsed = NotJson | JsonNull | JsonValue(fields: Extracted)

  /** `{ needsSearch: false }`, used when the text does not parse. */
  const NO_SEARCH: Extracted := Extracted(None, None, None, None, None, None, None, false)

  // ---------------------------------------------------------------- replies

  /** What the chat reply says, by case; the wording itself is not modelled. */
  datatype ChatContent =
    | Said(text: string)                                               // a model answer or its fallback
    | NoFlightsFound(origin: string, date: string, destination: Option<string>)
    | SearchProblem(message: string)
    | Apology(status: int)                                             // the friendly text chosen for this status

  datatype Reply =
    | PlainText(status: int, text: string)
    | Chat(status: int, content: ChatContent, destinations: Option<seq<DestinationOption>>)

  const INVALID_REQUEST := "Invalid request: messages array required"
  const CONVERSATION_FALLBACK := "Przepraszam, nie zrozumiałem. Powiedz mi skąd chcesz lecieć, dokąd i kiedy - znajdę najlepsze loty!"
  const FORMAT_FALLBACK := "Znalazłem kilka opcji dla Ciebie! Sprawdź karty poniżej."

  /** At most this many flights are searched for and enriched. */
  const MAX_FLIGHTS := 5

  // ---------------------------------------------------------------- steps

  /**
   * `content.find(b => b.type === 'text')?.text`: the text of the first block
   * of kind "text", if any.
   */
  function FirstText(blocks: seq<Block>): (r: Option<string>)
    ensures (forall i :: 0 <= i < |blocks| ==> blocks[i].kind != "text") ==> r.None?
    ensures forall k :: (0 <= k < |blocks| && blocks[k].kind == "text"
                         && forall j :: 0 <= j < k ==> blocks[j].kind != "text") ==> r == blocks[k].text
  {
    if blocks == [] then None
    else if blocks[0].kind == "text" then blocks[0].text
    else FirstText(blocks[1..])
  }

  /**
   * The text of the LAST message of the history, whoever sent it: a string
   * content as it is, otherwise the first block's text or "". `None` when the
   * history is empty, where reading `.content` throws.
   */
  function UserContent(messages: seq<ChatMessage>): (r: Option<string>)
    ensures r.None? <==> messages == []
    ensures messages != [] && messages[|messages| - 1].content.TextContent? ==>
              r == Some(messages[|messages| - 1].content.text)
    // block content: the first block's text when it is non-empty, otherwise ""
    ensures messages != [] && messages[|messages| - 1].content.BlockContent? ==>
              var bs := messages[|messages| - 1].content.blocks;
              (bs != [] && Truthy(bs[0].text) ==> r == bs[0].text)
              && (bs == [] || !Truthy(bs[0].text) ==> r == Some(""))
  {
    if messages == [] then None
    else
      match messages[|messages| - 1].content
      case TextContent(t) => Some(t)
      case BlockContent(bs) => Some(if bs == [] then "" else OrElse(bs[0].text, ""))
  }

  /**
   * `text.replace(/tok\n?/g, '')`: every occurrence of `tok`, scanning left to
   * right without overlap, is removed together with one newline right after it.
   */
  function RemoveAll(s: string, tok: string): (r: string)
    requires tok != []
    ensures |r| <= |s|
    decreases |s|
  {
    if s == [] then []
    else if StartsWith(s, tok) then
      var rest := s[|tok|..];
      if rest != [] && rest[0] == '\n' then RemoveAll(rest[1..], tok) else RemoveAll(rest, tok)
    else [s[0]] + RemoveAll(s[1..], tok)
  }

  /** The cleaning before `JSON.parse`: strip "```json" fences, then "```" fences, then trim. */
  function StripFences(text: string): (r: string)
    ensures |r| <= |text|
    ensures r == [] || (!IsSpace(r[0]) && !IsSpace(r[|r| - 1]))
  {
    Trim(RemoveAll(RemoveAll(text, "```json"), "```"))
  }

  /** Text without a backtick passes through a removal untouched up to the first backtick. */
  lemma {:induction false} RemoveAllSkipsPlainText(b: string, t: string, tok: string)
    requires tok != [] && tok[0] == '`' && '`' !in b
    ensures RemoveAll(b + t, tok) == b + RemoveAll(t, tok)
  {
    if b != [] {
      var s := b + t;
      assert s[0] == b[0] && s[1..] == b[1..] + t;
      assert s[0] != '`' by { assert b[0] in b; }
      assert !StartsWith(s, tok) by {
        if |tok| <= |s| {
          assert s[..|tok|][0] == s[0];
        }
      }
      assert '`' !in b[1..] by {
        forall c | c in b[1..] ensures c in b {
        }
      }
      RemoveAllSkipsPlainText(b[1..], t, tok);
      assert b == [b[0]] + b[1..];
    } else {
      assert b + t == t;
    }
  }

  /** Text with no backtick is only trimmed. */
  lemma PlainTextOnlyTrimmed(b: string)
    requires '`' !in b
    ensures StripFences(b) == Trim(b)
  {
    RemoveAllSkipsPlainText(b, "", "```json");
    RemoveAllSkipsPlainText(b, "", "```");
    assert b + "" == b;
  }

  /** The closing fence holds no "```json" and loses only its backticks to the "```" pass. */
  lemma ClosingFence()
    ensures RemoveAll("\n```", "```json") == "\n```"
    ensures RemoveAll("\n```", "```") == "\n"
  {
    assert !StartsWith("\n```", "```json");
    assert !StartsWith("```", "```json");
    assert !StartsWith("``", "```json");
    assert !StartsWith("`", "```json");
    assert "\n```"[..3][0] == '\n';
    assert !StartsWith("\n```", "```");
    assert "\n```"[1..] == "```";
    assert StartsWith("```", "```");
    assert "```"[3..] == [];
  }

  /** The "```json" pass drops the opening fence with its newline. */
  lemma OpeningFenceDropped(b: string)
    requires '`' !in b
    ensures RemoveAll("```json\n" + b + "\n```", "```json") == b + "\n```"
  {
    var s := "```json\n" + b + "\n```";
    assert StartsWith(s, "```json");
    assert s[7..] == "\n" + (b + "\n```");
    assert s[7..][1..] == b + "\n```";
    RemoveAllSkipsPlainText(b, "\n```", "```json");
    ClosingFence();
  }

  /** A JSON body in a "```json" fenced block comes out as the trimmed body. */
  lemma FencedJsonIsUnwrapped(b: string)
    requires '`' !in b
    ensures StripFences("```json\n" + b + "\n```") == Trim(b)
  {
    OpeningFenceDropped(b);
    RemoveAllSkipsPlainText(b, "\n```", "```");
    ClosingFence();
    assert AllSpace("\n") && AllSpace("");
    TrimPadded("", b, "\n");
    assert "" + b + "\n" == b + "\n";
  }

  /** The extracted members, or `None` when reading `needsSearch` throws (parsed `null`). */
  function Intent(p: Parsed): (r: Option<Extracted>)
    ensures p.NotJson? ==> r == Some(NO_SEARCH)
    ensures r.None? <==> p.JsonNull?
    ensures p.JsonValue? ==> r == Some(p.fields)
  {
    match p
    case NotJson => Some(NO_SEARCH)
    case JsonNull => None
    case JsonValue(fields) => Some(fields)
  }

  /** The parameters the model extracted from the last message, when the handler gets that far. */
  function Understand(messages: seq<ChatMessage>, extract: string -> Call<seq<Block>>,
                      parse: string -> Parsed): (r: Option<Extracted>)
    ensures messages == [] ==> r.None?
    ensures messages != [] && extract(UserContent(messages).value).Fail? ==> r.None?
    // the model's first text block (or "{}") is cleaned and parsed; unparsable text means no search
    ensures messages != [] && extract(UserContent(messages).value).Ok? ==>
              var text := StripFences(OrElse(FirstText(extract(UserContent(messages).value).value), "{}"));
              (r.None? <==> parse(text).JsonNull?)
              && (parse(text).NotJson? ==> r == Some(NO_SEARCH))
              && (parse(text).JsonValue? ==> r == Some(parse(text).fields))
  {
    match UserContent(messages)
    case None => None
    case Some(c) =>
      match extract(c)
      case Fail(_) => None
      case Ok(blocks) => Intent(parse(StripFences(OrElse(FirstText(blocks), "{}"))))
  }

  /** What `toISOString()` yields: an RFC 3339 full-date, then 'T' and the time. */
  predicate IsIsoTimestamp(s: string) {
    |s| > 10 && Utils.IsFullDate(s[..10]) && s[10] == 'T'
  }

  /** `nextWeek.toISOString().split('T')[0]` is the date part. */
  lemma IsoDatePart(s: string)
    requires IsIsoTimestamp(s)
    ensures Split(s, 'T')[0] == s[..10]
  {
    SplitFirstField(s, 'T');
    var day := s[..10];
    assert forall i :: 0 <= i < 10 ==> s[i] == day[i];
    assert forall i :: 0 <= i < 4 ==> IsDigit(day[..4][i]) && day[i] == day[..4][i];
    assert forall i :: 5 <= i < 7 ==> IsDigit(day[5..7][i - 5]) && day[i] == day[5..7][i - 5];
    assert forall i :: 8 <= i < 10 ==> IsDigit(day[8..][i - 8]) && day[i] == day[8..][i - 8];
    var first := Split(s, 'T')[0];
    assert first == s[..|first|];
  }

  /** `o || undefined` for an optional string: "" is dropped. */
  function StringOrUndefined(o: Option<string>): (r: Option<string>)
    ensures r.Some? <==> Truthy(o)
    ensures Truthy(o) ==> r == o
  {
    if Truthy(o) then o else None
  }

  /** `n || undefined` for an optional number: 0 is dropped. */
  function NumberOrUndefined(o: Option<int>): (r: Option<int>)
    ensures r.Some? <==> o.Some? && o.value != 0
    ensures o.Some? && o.value != 0 ==> r == o
  {
    if o.Some? && o.value != 0 then o else None
  }

  /**
   * The search request built from the extracted members: origin defaults to
   * WAW, the date to the day of `nextWeekIso`, falsy optional members are
   * dropped, and at most five results are asked for.
   */
  function ChatSearch(ex: Extracted, nextWeekIso: string): (p: FlightSearchParams)
    requires IsIsoTimestamp(nextWeekIso)
    ensures p.origin != "" && p.departureDate != ""
    ensures p.origin == if Truthy(ex.origin) then ex.origin.value else "WAW"
    ensures p.departureDate == if Truthy(ex.departureDate) then ex.departureDate.value else nextWeekIso[..10]
    ensures !Truthy(ex.departureDate) ==> Utils.IsFullDate(p.departureDate)
    ensures p.destination.Some? <==> Truthy(ex.destination)
    ensures Truthy(ex.destination) ==> p.destination == ex.destination
    ensures p.returnDate.Some? <==> Truthy(ex.returnDate)
    ensures Truthy(ex.returnDate) ==> p.returnDate == ex.returnDate
    ensures p.preferences.Some? <==> Truthy(ex.preferences)
    ensures Truthy(ex.preferences) ==> p.preferences == ex.preferences
    ensures p.maxPrice.Some? <==> ex.maxPrice.Some? && ex.maxPrice.value != 0
    ensures ex.maxPrice.Some? && ex.maxPrice.value != 0 ==> p.maxPrice == ex.maxPrice
    ensures p.maxDuration.Some? <==> ex.maxDuration.Some? && ex.maxDuration.value != 0
    ensures ex.maxDuration.Some? && ex.maxDuration.value != 0 ==> p.maxDuration == ex.maxDuration
    ensures p.minDuration.None? && p.maxArrivalTime.None? && p.currency.None? && p.directFlightsOnly.None?
    ensures p.maxResults == Some(MAX_FLIGHTS)
  {
    IsoDatePart(nextWeekIso);
    FlightSearchParams(
      origin := OrElse(ex.origin, "WAW"),
      destination := StringOrUndefined(ex.destination),
      departureDate := OrElse(ex.departureDate, Split(nextWeekIso, 'T')[0]),
      returnDate := StringOrUndefined(ex.returnDate),
      maxPrice := NumberOrUndefined(ex.maxPrice),
      minDuration := None,
      maxArrivalTime := None,
      maxDuration := NumberOrUndefined(ex.maxDuration),
      currency := None,
      directFlightsOnly := None,
      preferences := StringOrUndefined(ex.preferences),
      maxResults := Some(MAX_FLIGHTS))
  }

  /** `apiError instanceof Error ? apiError.message : 'Unknown error'`. */
  function ErrorText(e: ApiError): string {
    if e.message.Some? then e.message.value else "Unknown error"
  }

  /** The status of the outer catch: what the provider's error means to the user. */
  function ErrorStatus(e: ApiError): (code: int)
    ensures code in {401, 402, 429, 500, 503}
    ensures code == 402 <==> e.status == Some(400) && e.message.Some? && Includes(e.message.value, "credit balance")
    ensures code == 401 <==> e.status == Some(401)
    ensures code == 429 <==> e.status == Some(429)
    ensures code == 503 <==> e.status == Some(529) || e.status == Some(503)
  {
    if e.status == Some(400) && e.message.Some? && Includes(e.message.value, "credit balance") then 402
    else if e.status == Some(401) then 401
    else if e.status == Some(429) then 429
    else if e.status == Some(529) || e.status == Some(503) then 503
    else 500
  }

  /** A 400 from the provider that is not about the credit balance, like any error without a known status, is a 500. */
  lemma OtherErrorsAreServerErrors(e: ApiError)
    requires e.status.None? || e.status.value !in {401, 429, 503, 529}
    requires !(e.message.Some? && Includes(e.message.value, "credit balance"))
    ensures ErrorStatus(e) == 500
  {
  }

  /** The reply of the outer catch. */
  function Failure(e: ApiError): (r: Reply)
    ensures r.Chat? && r.status == ErrorStatus(e) && r.content == Apology(r.status) && r.destinations.None?
  {
    Chat(ErrorStatus(e), Apology(ErrorStatus(e)), None)
  }

  /** The shape every reply of the search stage has. */
  predicate WellShaped(r: Reply) {
    && (r.Chat? && r.status != 200 ==>
          r.status in {401, 402, 429, 500, 503} && r.content == Apology(r.status) && r.destinations.None?)
    && (r.Chat? && r.destinations.Some? ==>
          r.status == 200 && 1 <= |r.destinations.value| <= MAX_FLIGHTS
          && forall i :: 0 <= i < |r.destinations.value| ==>
               r.destinations.value[i].totalEstimatedCost == r.destinations.value[i].flight.price
               && r.destinations.value[i].destination == r.destinations.value[i].flight.destination)
  }

  /** The reply the search stage owes `userContent` once the extraction asked for a search. */
  predicate SearchOutcome(r: Reply, userContent: string, ex: Extracted, nextWeekIso: string,
                          search: FlightSearchParams -> Call<seq<FlightOffer>>,
                          attractionsOf: string -> Settled<seq<Attraction>>,
                          weatherOf: (string, string) -> Settled<Option<WeatherData>>,
                          format: (string, seq<DestinationOption>) -> Call<seq<Block>>)
    requires IsIsoTimestamp(nextWeekIso)
  {
    var p := ChatSearch(ex, nextWeekIso);
    match search(p)
    case Ok(flights) =>
      (flights == [] ==>
        r == Chat(200, NoFlightsFound(p.origin, p.departureDate, p.destination), None))
      && (flights != [] ==>
        var d := Enrich(SliceTo(flights, MAX_FLIGHTS), attractionsOf, weatherOf);
        match format(userContent, d)
        case Fail(e) => r == Failure(e)
        case Ok(blocks) => r == Chat(200, Said(OrElse(FirstText(blocks), FORMAT_FALLBACK)), Some(d)))
    case Fail(e) =>
      (ErrorText(e) != "" ==> r == Chat(200, SearchProblem(ErrorText(e)), None))
      // an empty error message is falsy: the reply is formatted from no destinations
      && (ErrorText(e) == "" ==>
        match format(userContent, [])
        case Fail(e') => r == Failure(e')
        case Ok(blocks) => r == Chat(200, Said(OrElse(FirstText(blocks), FORMAT_FALLBACK)), None))
  }

  /**
   * The search stage of `POST /api/chat`, once the model asked for a search:
   * the defaults, the flight search, the enrichment of at most five flights
   * and the formatted reply.
   */
  method SearchAndFormat(userContent: string, ex: Extracted, nextWeekIso: string,
                         search: FlightSearchParams -> Call<seq<FlightOffer>>,
                         attractionsOf: string -> Settled<seq<Attraction>>,
                         weatherOf: (string, string) -> Settled<Option<WeatherData>>,
                         format: (string, seq<DestinationOption>) -> Call<seq<Block>>)
    returns (r: Reply)
    requires IsIsoTimestamp(nextWeekIso)
    ensures r.Chat? && WellShaped(r)
    ensures SearchOutcome(r, userContent, ex, nextWeekIso, search, attractionsOf, weatherOf, format)
  {
    var params := ChatSearch(ex, nextWeekIso);
    var destinations: seq<DestinationOption> := [];
    var errorMessage: Option<string> := None;
    var found := search(params);
    if found.Fail? {
      errorMessage := Some(ErrorText(found.error));
    } else {
      var flights := found.value;
      if |flights| == 0 {
        return Chat(200, NoFlightsFound(params.origin, params.departureDate, params.destination), None);
      }
      destinations := Enrich(SliceTo(flights, MAX_FLIGHTS), attractionsOf, weatherOf);
    }
    var content: ChatContent;
    if Truthy(errorMessage) {
      content := SearchProblem(errorMessage.value);
    } else {
      var formatted := format(userContent, destinations);
      if formatted.Fail? {
        return Failure(formatted.error);
      }
      content := Said(OrElse(FirstText(formatted.value), FORMAT_FALLBACK));
    }
    r := Chat(200, content, if |destinations| > 0 then Some(destinations) else None);
  }

  /**
   * The handler from the message list on: extraction, then either the
   * conversation answer or the search stage.
   */
  method Answer(messages: seq<ChatMessage>, nextWeekIso: string,
                extract: string -> Call<seq<Block>>, parse: string -> Parsed,
                converse: seq<ChatMessage> -> Call<seq<Block>>,
                search: FlightSearchParams -> Call<seq<FlightOffer>>,
                attractionsOf: string -> Settled<seq<Attraction>>,
                weatherOf: (string, string) -> Settled<Option<WeatherData>>,
                format: (string, seq<DestinationOption>) -> Call<seq<Block>>)
    returns (r: Reply)
    requires IsIsoTimestamp(nextWeekIso)
    ensures messages == [] ==> r == Failure(INTERNAL)
    ensures messages != [] && extract(UserContent(messages).value).Fail? ==>
              r == Failure(extract(UserContent(messages).value).error)
    ensures messages != [] && extract(UserContent(messages).value).Ok?
            && Understand(messages, extract, parse).None? ==>
              r == Failure(INTERNAL)
    ensures WellShaped(r)
    ensures Understand(messages, extract, parse).Some?
            && !Understand(messages, extract, parse).value.needsSearch ==>
              r.Chat? && r.destinations.None?
              && match converse(messages)
                 case Fail(e) => r == Failure(e)
                 case Ok(blocks) => r.status == 200 && r.content == Said(OrElse(FirstText(blocks), CONVERSATION_FALLBACK))
    ensures Understand(messages, extract, parse).Some?
            && Understand(messages, extract, parse).value.needsSearch ==>
              SearchOutcome(r, UserContent(messages).value, Understand(messages, extract, parse).value,
                            nextWeekIso, search, attractionsOf, weatherOf, format)
  {
    var userContent := UserContent(messages);
    if userContent.None? {
      return Failure(INTERNAL);
    }
    var extraction := extract(userContent.value);
    if extraction.Fail? {
      return Failure(extraction.error);
    }
    var intent := Understand(messages, extract, parse);
    if intent.None? {
      return Failure(INTERNAL);
    }
    var ex := intent.value;
    if !ex.needsSearch {
      var conversation := converse(messages);
      if conversation.Fail? {
        return Failure(conversation.error);
      }
      return Chat(200, Said(OrElse(FirstText(conversation.value), CONVERSATION_FALLBACK)), None);
    }
    r := SearchAndFormat(userContent.value, ex, nextWeekIso, search, attractionsOf, weatherOf, format);
  }

  /**
   * `POST /api/chat`. `nextWeekIso` is `toISOString()` of the clock seven days
   * ahead; `format` receives the user's text and the enriched destinations.
   */
  method Post(userId: Option<string>, body: Option<MessagesField>, nextWeekIso: string,
              extract: string -> Call<seq<Block>>, parse: string -> Parsed,
              converse: seq<ChatMessage> -> Call<seq<Block>>,
              search: FlightSearchParams -> Call<seq<FlightOffer>>,
              attractionsOf: string -> Settled<seq<Attraction>>,
              weatherOf: (string, string) -> Settled<Option<WeatherData>>,
              format: (string, seq<DestinationOption>) -> Call<seq<Block>>)
    returns (r: Reply)
    requires IsIsoTimestamp(nextWeekIso)
    ensures !Truthy(userId) ==> r == PlainText(401, "Unauthorized")
    ensures Truthy(userId) && body.None? ==> r == Failure(INTERNAL)
    ensures Truthy(userId) && body.Some? && !body.value.Messages? ==> r == PlainText(400, INVALID_REQUEST)
    ensures Truthy(userId) && body == Some(Messages([])) ==> r == Failure(INTERNAL) && r.status == 500
    // the extraction call fails: its error goes through the status table
    ensures Truthy(userId) && body.Some? && body.value.Messages? && body.value.items != []
            && extract(UserContent(body.value.items).value).Fail? ==>
              r == Failure(extract(UserContent(body.value.items).value).error)
    // the extraction parses to `null`: reading `needsSearch` throws
    ensures Truthy(userId) && body.Some? && body.value.Messages? && body.value.items != []
            && extract(UserContent(body.value.items).value).Ok?
            && Understand(body.value.items, extract, parse).None? ==>
              r == Failure(INTERNAL)
    // every error reply carries no destinations and a status from the mapping;
    // destinations are present only when there are some, at most five, each costing its flight's fare
    ensures WellShaped(r)
    // just chatting: no search, no destinations
    ensures Truthy(userId) && body.Some? && body.value.Messages?
            && Understand(body.value.items, extract, parse).Some?
            && !Understand(body.value.items, extract, parse).value.needsSearch ==>
              r.Chat? && r.destinations.None?
              && match converse(body.value.items)
                 case Fail(e) => r == Failure(e)
                 case Ok(blocks) => r.status == 200 && r.content == Said(OrElse(FirstText(blocks), CONVERSATION_FALLBACK))
    // searching: the search stage decides the reply
    ensures Truthy(userId) && body.Some? && body.value.Messages?
            && Understand(body.value.items, extract, parse).Some?
            && Understand(body.value.items, extract, parse).value.needsSearch ==>
              SearchOutcome(r, UserContent(body.value.items).value, Understand(body.value.items, extract, parse).value,
                            nextWeekIso, search, attractionsOf, weatherOf, format)
  {
    if !Truthy(userId) {
      return PlainText(401, "Unauthorized");
    }
    if body.None? {
      return Failure(INTERNAL);
    }
    if !body.value.Messages? {
      return PlainText(400, INVALID_REQUEST);
    }
    r := Answer(body.value.items, nextWeekIso, extract, parse, converse, search, attractionsOf, weatherOf, format);
  }
}
