/**
 * The AWS Lambda adapter's pure helpers (listens/delivery/aws_lambda/util.py):
 * mapping service exceptions to responses, reading query parameters and
 * request bodies, and shaping a Listen for a response body.
 */
module LambdaUtil {
  import opened Wrappers
  import opened Definitions

  /** A JSON value as it appears in a request or response body: text or null. */
  datatype JsonValue = JString(text: string) | JNull

  /** A response body: an error message, or the JSON text a handler produced. */
  datatype Body = MessageBody(message: string) | HandlerBody(json: string)

  datatype Response = Response(statusCode: int, body: Body)

  /**
   * catch_listens_service_errors applied to what the wrapped handler did: a
   * returned response passes through; InvalidIanaTimezoneError and
   * InvalidSongError become 400, SunlightError 428 and ListenDoesntExistError
   * 404, each with the exception's message; every other exception, the
   * SunlightServiceError included, is raised again unchanged.
   */
  function CatchListensServiceErrors(handled: Result<Response, Exception>): (r: Result<Response, Exception>)
    ensures handled.Success? ==> r == handled
    ensures forall m :: handled == Failure(ServiceException(InvalidIanaTimezoneError, m)) ==>
              r == Success(Response(400, MessageBody(m)))
    ensures forall m :: handled == Failure(ServiceException(InvalidSongError, m)) ==>
              r == Success(Response(400, MessageBody(m)))
    ensures forall m :: handled == Failure(ServiceException(SunlightError, m)) ==>
              r == Success(Response(428, MessageBody(m)))
    ensures forall m :: handled == Failure(ServiceException(ListenDoesntExistError, m)) ==>
              r == Success(Response(404, MessageBody(m)))
    ensures r.Failure? <==>
              handled.Failure? && !(handled.error.ServiceException? && handled.error.kind != SunlightServiceError)
    ensures r.Failure? ==> r == handled
  {
    match handled
    case Success(_) => handled
    case Failure(e) =>
      match e
      case ServiceException(InvalidIanaTimezoneError, m) => Success(Response(400, MessageBody(m)))
      case ServiceException(InvalidSongError, m) => Success(Response(400, MessageBody(m)))
      case ServiceException(SunlightError, m) => Success(Response(428, MessageBody(m)))
      case ServiceException(ListenDoesntExistError, m) => Success(Response(404, MessageBody(m)))
      case _ => handled
  }

  /** The parameters of a listing, after defaults. */
  datatype GetListensParams = GetListensParams(
    limit: int,
    sortOrder: SortOrder,
    beforeUtc: Option<int>,
    afterUtc: Option<int>)

  /** `int(text)` and ISO-8601 datetime parsing; their definitions are not part of this model. */
  datatype Parsers = Parsers(
    parseInt: string -> Result<int, Exception>,
    parseDatetime: string -> Result<int, Exception>)

  /** `str.upper()` on one character, for ASCII letters. */
  function UpperChar(c: char): char {
    if 'a' <= c <= 'z' then (c as int - 'a' as int + 'A' as int) as char else c
  }

  /** `str.upper()`, character by character. */
  function Upper(s: string): (u: string)
    ensures |u| == |s|
    ensures forall i :: 0 <= i < |s| ==> u[i] == UpperChar(s[i])
    ensures forall i :: 0 <= i < |u| ==> !('a' <= u[i] <= 'z')
    ensures forall i :: 0 <= i < |s| && !('a' <= s[i] <= 'z') ==> u[i] == s[i]
  {
    seq(|s|, i requires 0 <= i < |s| => UpperChar(s[i]))
  }

  /** The member name of a SortOrder. */
  function SortOrderName(sortOrder: SortOrder): string {
    match sortOrder
    case Ascending => "ASCENDING"
    case Descending => "DESCENDING"
  }

  /** `SortOrder[text.upper()]`: the member whose name is the upper-cased text, or KeyError. */
  function SortOrderFromText(text: string): (r: Result<SortOrder, Exception>)
    ensures r.Success? <==> Upper(text) == "ASCENDING" || Upper(text) == "DESCENDING"
    ensures r.Success? ==> SortOrderName(r.value) == Upper(text)
    ensures r.Failure? ==> r.error == KeyError(Upper(text))
  {
    var name := Upper(text);
    if name == "ASCENDING" then Success(Ascending)
    else if name == "DESCENDING" then Success(Descending)
    else Failure(KeyError(name))
  }

  /** Upper-casing `s` gives `t` when it does so character by character. */
  lemma UpperIs(s: string, t: string)
    requires |s| == |t|
    requires forall i :: 0 <= i < |s| ==> UpperChar(s[i]) == t[i]
    ensures Upper(s) == t
  {
  }

  /** The letter case of the sort order parameter does not matter. */
  lemma SortOrderIgnoresCase()
    ensures SortOrderFromText("descending") == Success(Descending)
    ensures SortOrderFromText("Descending") == Success(Descending)
    ensures SortOrderFromText("ascending") == Success(Ascending)
    ensures SortOrderFromText("Ascending") == Success(Ascending)
  {
    assert Upper("descending") == "DESCENDING" by {
      UpperIs("descending", "DESCENDING");
    }
    assert Upper("Descending") == "DESCENDING" by {
      UpperIs("Descending", "DESCENDING");
    }
    assert Upper("ascending") == "ASCENDING" by {
      UpperIs("ascending", "ASCENDING");
    }
    assert Upper("Ascending") == "ASCENDING" by {
      UpperIs("Ascending", "ASCENDING");
    }
  }

  const DEFAULT_LIMIT := 20
  const DEFAULT_SORT_ORDER := "ascending"

  /**
   * pluck_get_listens_params: limit (default 20), sort order (default
   * ascending, any letter case), then the optional bounds, present only when
   * their key is. The first step that raises decides the exception.
   */
  function PluckGetListensParams(query: map<string, string>, parsers: Parsers): (r: Result<GetListensParams, Exception>)
    ensures "limit" in query && parsers.parseInt(query["limit"]).Failure? ==>
              r == Failure(parsers.parseInt(query["limit"]).error)
    ensures ("limit" in query ==> parsers.parseInt(query["limit"]).Success?) ==>
              var sortOrder := SortOrderFromText(if "sort_order" in query then query["sort_order"] else DEFAULT_SORT_ORDER);
              sortOrder.Failure? ==> r == Failure(sortOrder.error)
    ensures && ("limit" in query ==> parsers.parseInt(query["limit"]).Success?)
            && SortOrderFromText(if "sort_order" in query then query["sort_order"] else DEFAULT_SORT_ORDER).Success?
            && "before_utc" in query && parsers.parseDatetime(query["before_utc"]).Failure? ==>
              r == Failure(parsers.parseDatetime(query["before_utc"]).error)
    ensures && ("limit" in query ==> parsers.parseInt(query["limit"]).Success?)
            && SortOrderFromText(if "sort_order" in query then query["sort_order"] else DEFAULT_SORT_ORDER).Success?
            && ("before_utc" in query ==> parsers.parseDatetime(query["before_utc"]).Success?)
            && "after_utc" in query && parsers.parseDatetime(query["after_utc"]).Failure? ==>
              r == Failure(parsers.parseDatetime(query["after_utc"]).error)
    ensures r.Success? ==>
              r.value.limit == if "limit" in query then parsers.parseInt(query["limit"]).value else DEFAULT_LIMIT
    ensures r.Success? ==>
              SortOrderName(r.value.sortOrder)
                == Upper(if "sort_order" in query then query["sort_order"] else DEFAULT_SORT_ORDER)
    ensures r.Success? ==> (r.value.beforeUtc.Some? <==> "before_utc" in query)
    ensures r.Success? && "before_utc" in query ==>
              Success(r.value.beforeUtc.value) == parsers.parseDatetime(query["before_utc"])
    ensures r.Success? ==> (r.value.afterUtc.Some? <==> "after_utc" in query)
    ensures r.Success? && "after_utc" in query ==>
              Success(r.value.afterUtc.value) == parsers.parseDatetime(query["after_utc"])
    ensures r.Success? <==>
              && ("limit" in query ==> parsers.parseInt(query["limit"]).Success?)
              && SortOrderFromText(if "sort_order" in query then query["sort_order"] else DEFAULT_SORT_ORDER).Success?
              && ("before_utc" in query ==> parsers.parseDatetime(query["before_utc"]).Success?)
              && ("after_utc" in query ==> parsers.parseDatetime(query["after_utc"]).Success?)
  {
    var limit := if "limit" in query then parsers.parseInt(query["limit"]) else Success(DEFAULT_LIMIT);
    if limit.Failure? then Failure(limit.error) else
    var sortOrder := SortOrderFromText(if "sort_order" in query then query["sort_order"] else DEFAULT_SORT_ORDER);
    if sortOrder.Failure? then Failure(sortOrder.error) else
    var beforeUtc := if "before_utc" in query then parsers.parseDatetime(query["before_utc"]) else Success(0);
    if beforeUtc.Failure? then Failure(beforeUtc.error) else
    var afterUtc := if "after_utc" in query then parsers.parseDatetime(query["after_utc"]) else Success(0);
    if afterUtc.Failure? then Failure(afterUtc.error) else
    Success(GetListensParams(
      limit.value,
      sortOrder.value,
      if "before_utc" in query then Some(beforeUtc.value) else None,
      if "after_utc" in query then Some(afterUtc.value) else None))
  }

  /** With no query parameters a listing asks for 20 listens, ascending, unbounded. */
  lemma DefaultListingParams(parsers: Parsers)
    ensures PluckGetListensParams(map[], parsers) == Success(GetListensParams(20, Ascending, None, None))
  {
    UpperIs(DEFAULT_SORT_ORDER, "ASCENDING");
  }

  /** The member name of a MusicProvider. */
  function ProviderName(provider: MusicProvider): string {
    match provider
    case Spotify => "SPOTIFY"
  }

  /** `MusicProvider[name]`: the member with that name, or KeyError. */
  function ProviderNamed(name: string): (r: Result<MusicProvider, Exception>)
    ensures r.Success? <==> name == ProviderName(Spotify)
    ensures r.Success? ==> ProviderName(r.value) == name
    ensures r.Failure? ==> r.error == KeyError(name)
  {
    if name == "SPOTIFY" then Success(Spotify) else Failure(KeyError(name))
  }

  /** `raw[key]` where the value is used as text: KeyError when absent. */
  function TextField(raw: map<string, JsonValue>, key: string): (r: Result<string, Exception>)
    ensures r.Success? <==> key in raw && raw[key].JString?
    ensures r.Success? ==> raw[key] == JString(r.value)
    ensures key !in raw ==> r == Failure(KeyError(key))
  {
    if key !in raw then Failure(KeyError(key))
    else if raw[key].JNull? then Failure(OtherException("TypeError"))
    else Success(raw[key].text)
  }

  /**
   * pluck_listen_input: the listen's fields from the request body, read in
   * the order song_id, song_provider, listener_name, note, iana_timezone;
   * the listen time is the current time, whatever the body holds.
   */
  function PluckListenInput(raw: map<string, JsonValue>, currentTimeUtc: int): (r: Result<ListenInput, Exception>)
    ensures r.Success? <==>
              && (forall key :: key in ["song_id", "song_provider", "listener_name", "note", "iana_timezone"] ==>
                    key in raw)
              && "song_id" in raw && raw["song_id"].JString?
              && raw["song_provider"] == JString("SPOTIFY")
              && raw["listener_name"].JString?
              && raw["iana_timezone"].JString?
    ensures "song_id" !in raw ==> r == Failure(KeyError("song_id"))
    ensures "song_id" in raw && raw["song_id"].JNull? ==> r == Failure(OtherException("TypeError"))
    ensures "song_id" in raw && raw["song_id"].JString? && "song_provider" !in raw ==>
              r == Failure(KeyError("song_provider"))
    ensures "song_id" in raw && raw["song_id"].JString? && "song_provider" in raw ==>
              match raw["song_provider"]
              case JNull => r == Failure(KeyError("None"))
              case JString(name) => name != ProviderName(Spotify) ==> r == Failure(KeyError(name))
    ensures && "song_id" in raw && raw["song_id"].JString?
            && "song_provider" in raw && raw["song_provider"] == JString(ProviderName(Spotify)) ==>
              && ("listener_name" !in raw ==> r == Failure(KeyError("listener_name")))
              && ("listener_name" in raw && raw["listener_name"].JNull? ==> r == Failure(OtherException("TypeError")))
    ensures && "song_id" in raw && raw["song_id"].JString?
            && "song_provider" in raw && raw["song_provider"] == JString(ProviderName(Spotify))
            && "listener_name" in raw && raw["listener_name"].JString? ==>
              && ("note" !in raw ==> r == Failure(KeyError("note")))
              && ("note" in raw && "iana_timezone" !in raw ==> r == Failure(KeyError("iana_timezone")))
              && ("note" in raw && "iana_timezone" in raw && raw["iana_timezone"].JNull? ==>
                    r == Failure(OtherException("TypeError")))
    ensures r.Success? ==>
              && r.value.listenTimeUtc == currentTimeUtc
              && raw["song_id"] == JString(r.value.songId)
              && raw["song_provider"] == JString(ProviderName(r.value.songProvider))
              && raw["listener_name"] == JString(r.value.listenerName)
              && raw["note"] == (if r.value.note.Some? then JString(r.value.note.value) else JNull)
              && raw["iana_timezone"] == JString(r.value.ianaTimezone)
  {
    var songId := TextField(raw, "song_id");
    if songId.Failure? then Failure(songId.error) else
    var providerName := TextField(raw, "song_provider");
    if providerName.Failure? then
      (if "song_provider" in raw then Failure(KeyError("None")) else Failure(providerName.error))
    else
    var songProvider := ProviderNamed(providerName.value);
    if songProvider.Failure? then Failure(songProvider.error) else
    var listenerName := TextField(raw, "listener_name");
    if listenerName.Failure? then Failure(listenerName.error) else
    if "note" !in raw then Failure(KeyError("note")) else
    var note := if raw["note"].JNull? then None else Some(raw["note"].text);
    var ianaTimezone := TextField(raw, "iana_timezone");
    if ianaTimezone.Failure? then Failure(ianaTimezone.error) else
    Success(ListenInput(songId.value, songProvider.value, listenerName.value, currentTimeUtc, note, ianaTimezone.value))
  }

  /** A `listen_time_utc` in the body has no effect on the input. */
  lemma BodyTimeIgnored(raw: map<string, JsonValue>, value: JsonValue, currentTimeUtc: int)
    ensures PluckListenInput(raw["listen_time_utc" := value], currentTimeUtc) == PluckListenInput(raw, currentTimeUtc)
  {
    var raw' := raw["listen_time_utc" := value];
    assert forall key :: key != "listen_time_utc" ==> (key in raw' <==> key in raw);
    assert forall key :: key != "listen_time_utc" && key in raw ==> raw'[key] == raw[key];
  }

  /** The seven fields of a response listen. */
  const LISTEN_FIELDS := {"id", "song_id", "song_provider", "listener_name", "listen_time_utc", "note", "iana_timezone"}

  /**
   * build_listen: the Listen's seven fields, the provider by its member name
   * and the time in the text `isoformat` gives it; an absent note is null.
   */
  function BuildListen(listen: Listen, isoformat: int -> string): (body: map<string, JsonValue>)
    ensures body.Keys == LISTEN_FIELDS
    ensures body["id"] == JString(listen.id)
    ensures body["song_id"] == JString(listen.songId)
    ensures body["song_provider"] == JString(ProviderName(listen.songProvider))
    ensures body["listener_name"] == JString(listen.listenerName)
    ensures body["listen_time_utc"] == JString(isoformat(listen.listenTimeUtc))
    ensures body["note"] == (if listen.note.Some? then JString(listen.note.value) else JNull)
    ensures body["iana_timezone"] == JString(listen.ianaTimezone)
  {
    map[
      "id" := JString(listen.id),
      "song_id" := JString(listen.songId),
      "song_provider" := JString(ProviderName(listen.songProvider)),
      "listener_name" := JString(listen.listenerName),
      "listen_time_utc" := JString(isoformat(listen.listenTimeUtc)),
      "note" := (if listen.note.Some? then JString(listen.note.value) else JNull),
      "iana_timezone" := JString(listen.ianaTimezone)]
  }

  /** A response listen read back as a request body gives the listen's input again. */
  lemma BuildThenPluck(listen: Listen, isoformat: int -> string)
    ensures PluckListenInput(BuildListen(listen, isoformat), listen.listenTimeUtc) == Success(InputOf(listen))
  {
    var body := BuildListen(listen, isoformat);
    assert TextField(body, "song_id") == Success(listen.songId);
    assert TextField(body, "song_provider") == Success(ProviderName(listen.songProvider));
    assert listen.songProvider == Spotify;
    assert ProviderNamed(ProviderName(listen.songProvider)) == Success(listen.songProvider);
    assert TextField(body, "listener_name") == Success(listen.listenerName);
    assert TextField(body, "iana_timezone") == Success(listen.ianaTimezone);
  }
}
