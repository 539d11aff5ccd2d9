# Listens service: a verified model of its core

The listens service records that a person listened to a song at a moment and
place. It accepts a listen only for a song the music catalog knows, and only
while it is daytime where the listener is. It also serves one listen by id and
pages of listens filtered by time. This project models in Dafny the parts of
the service that make decisions:

- `listen_entity.dfy` (`ListenEntity`) is the field-length validation. It
  builds the per-field report in one pass, note first, then listener name.
- `gateways.dfy` (`Gateways`) holds the catalog, sunlight and notification
  gateways. Each is a class whose answers come from a function fixed when the
  gateway is built, and which stands for whichever client is wired in. Every
  call a gateway serves is appended to one shared ghost `CallLog`. The day
  rules `local_date` and `is_day` are the two functions of a `DayEntity` value.
- `sql_db_gateway.dfy` (`SqlDbGateway`) is the SQL listen store. Its table is
  a `seq<Row>` in insertion order plus the next primary key.
  `add_listen`, `fetch_listen` and `fetch_listens` are methods of
  `ListenStore`. `fetch_listens` filters the rows, then orders them by time,
  then applies the limit, as a selection loop. Its result is specified by
  `IsOrderedPage`, which leaves the order of equal times open, as SQL does.
- `context.dfy` (`ListensContext`) bundles the four gateways that share one log.
- `use_listens.dfy` (`UseListens`) holds the use-cases. `SubmitRun` is a pure
  function that gives the submission's result and its gateway calls from the
  gateways' answers. `SubmitListen` is proved to produce exactly that result
  and that call trace, and to change the store and the announcements to match.
- `rest.dfy` (`Rest`) is the method/path router, with the item route's regular
  expression modelled as an anchored prefix match.
- `lambda_util.dfy` (`LambdaUtil`) holds the adapter helpers. They map
  exceptions to status codes, read query parameters with their defaults, read
  the request body into a `ListenInput`, and shape a Listen for a response.
- `decimal.dfy` (`Decimal`) renders integers as text (`str(n)`). It also reads
  a numeral back, which is what happens when a text id is compared with the
  integer key column.
- `definitions.dfy` and `wrappers.dfy` hold the records, the exception
  taxonomy and `Option`/`Result`.

Instants are whole seconds in UTC (`int`). A given `before_utc` or `after_utc`
is `Some(t)`: a Python `datetime` is always true, so the code's `if after_utc:`
tests only whether the bound was given.

Three behaviours of the code worth knowing:

- The notification gateway is handed the whole stored Listen.
- The item route is a prefix match, so `/listens/1b23d/extra` is routed to the
  single-listen handler too.
- When announcing fails after the listen was stored, the listen stays stored
  and the caller gets the announcement's exception. `SubmitRun` states this.

## Model

| member | source | states |
|---|---|---|
| `ListenEntity.CheckInvalid` | listens/entities/listen.py:10-26 | None exactly when neither rule fires. Otherwise a non-empty report whose keys are exactly the fired fields, `note` before `listener_name`, each once, with the message for that field. A None or empty note never fires; lengths 100/30 pass and 101/31 fail. |
| `Decimal.DecimalRoundTrip` | listens/gateways/sqlalchemy_db_gateway/sqlalchemy_db_gateway.py:73-76 | Reading back `str(n)` gives `n`, so an id the store hands out names its own row. |
| `Decimal.NatToDecimalInjective` | listens/gateways/sqlalchemy_db_gateway/sqlalchemy_db_gateway.py:73-76 | Distinct keys give distinct id texts. |
| `Gateways.MusicGateway.SongExists` | listens/abc/music_gateway.py:8-10 | Answers from the catalog and logs one `SongExists` call with its arguments. |
| `Gateways.SunlightGateway.FetchSunlightWindow` | listens/abc/sunlight_gateway.py:7-11 | Answers (or raises) from the sunlight service and logs one call with the timezone and date. |
| `Gateways.NotificationGateway.AnnounceListenAdded` | listens/gateways/notification_gateway_abc.py:6-10 | Records the listen as announced unless publishing raises, and logs the call either way. |
| `Decimal.NatToDecimal` | listens/gateways/sqlalchemy_db_gateway/sqlalchemy_db_gateway.py:75 | `str(id)`: a non-empty digit string with no leading zero. |
| `SqlDbGateway.BuildSqlListen` | listens/gateways/sqlalchemy_db_gateway/sqlalchemy_db_gateway.py:57-66 | The row for an input carries the key the table assigns; its columns are related to the input by the two round-trip lemmas. |
| `SqlDbGateway.PluckListen` | listens/gateways/sqlalchemy_db_gateway/sqlalchemy_db_gateway.py:72-82 | The Listen's id is text that reads back as the row's integer key. |
| `SqlDbGateway.BuildPluckRoundTrip` | listens/gateways/sqlalchemy_db_gateway/sqlalchemy_db_gateway.py:57-82 | Reading a row as a Listen and storing its input under the same key gives the same row. |
| `SqlDbGateway.InOrder` | listens/gateways/sqlalchemy_db_gateway/sqlalchemy_db_gateway.py:84-93 | Equal times may come in either order under `asc` and `desc`. |
| `SqlDbGateway.OrderFunctionIsTotal` | listens/gateways/sqlalchemy_db_gateway/sqlalchemy_db_gateway.py:84-93 | Both directions order times totally and transitively, only equal times compare both ways, and `desc` is `asc` reversed. |
| `SqlDbGateway.PluckBuildRoundTrip` | listens/gateways/sqlalchemy_db_gateway/sqlalchemy_db_gateway.py:57-82 | Building a row from an input and plucking it back keeps every input field (provider to `song_vendor` and back), with the key as the id text. |
| `SqlDbGateway.IdMatches` | listens/gateways/sqlalchemy_db_gateway/sqlalchemy_db_gateway.py:29 | A text id names a key exactly when it is a non-empty digit string, leading zeros allowed, whose value is the key; in particular `str(key)` names it. |
| `SqlDbGateway.InWindow` | listens/gateways/sqlalchemy_db_gateway/sqlalchemy_db_gateway.py:44-48 | A time at or before a given `after_utc`, or at or after a given `before_utc`, is excluded; with neither bound every time passes. |
| `SqlDbGateway.FindListen` | listens/gateways/sqlalchemy_db_gateway/sqlalchemy_db_gateway.py:27-35 | ListenDoesntExistError exactly when no row's key is named by the id, with the source's message. Otherwise a row the id names, plucked. |
| `SqlDbGateway.FreshIdUnused` | listens/gateways/sqlalchemy_db_gateway/sqlalchemy_db_gateway.py:20-25 | In a well-formed store, the id the next add will return names no existing listen. |
| `SqlDbGateway.AddThenFetch` | listens/gateways/sqlalchemy_db_gateway/sqlalchemy_db_gateway.py:20-35 | After an add, fetching by the returned id gives back exactly the returned listen. |
| `SqlDbGateway.Filtered` | listens/gateways/sqlalchemy_db_gateway/sqlalchemy_db_gateway.py:44-48 | Every selected listen is strictly after `after_utc` and strictly before `before_utc`, each bound only when given. |
| `SqlDbGateway.FilteredComplete` | listens/gateways/sqlalchemy_db_gateway/sqlalchemy_db_gateway.py:44-48 | Every row inside the bounds is selected. |
| `SqlDbGateway.ShortPageIsComplete` | listens/gateways/sqlalchemy_db_gateway/sqlalchemy_db_gateway.py:53 | A page shorter than the limit holds every matching listen. |
| `SqlDbGateway.PageWithinWindow` | listens/gateways/sqlalchemy_db_gateway/sqlalchemy_db_gateway.py:44-53 | Every listen of a page lies strictly inside the given bounds. |
| `SqlDbGateway.LatestFirst` | listens/gateways/sqlalchemy_db_gateway/sqlalchemy_db_gateway.py:50-53 | With limit 1 and DESCENDING over listens at t1 < t2, the page is exactly the listen at t2. |
| `SqlDbGateway.ListenStore.constructor` | listens/gateways/sqlalchemy_db_gateway/sqlalchemy_db_gateway.py:15-18 | A store over an empty table, whose first key will be 1. |
| `SqlDbGateway.ListenStore.AddListen` | listens/gateways/sqlalchemy_db_gateway/sqlalchemy_db_gateway.py:20-25 | Appends exactly one row under the next key and leaves the earlier rows unchanged. Returns that row as a Listen (the first id is "1") and keeps the keys fresh and increasing. |
| `SqlDbGateway.ListenStore.FetchListen` | listens/gateways/sqlalchemy_db_gateway/sqlalchemy_db_gateway.py:27-35 | Its result is `FindListen` of the current rows; it modifies nothing. |
| `SqlDbGateway.ListenStore.FetchListens` | listens/gateways/sqlalchemy_db_gateway/sqlalchemy_db_gateway.py:37-55 | Fails exactly for a negative limit. Otherwise returns an ordered page of the rows inside the bounds: at most `limit`, sorted by time in the requested direction, a sub-multiset of the matches, and no left-out match earlier in the order than a returned one. Modifies nothing. |
| `SqlDbGateway.SelectInWindow` | listens/gateways/sqlalchemy_db_gateway/sqlalchemy_db_gateway.py:42-48 | The filter loop yields exactly the matching rows in table order. |
| `SqlDbGateway.FirstInOrder` | listens/gateways/sqlalchemy_db_gateway/sqlalchemy_db_gateway.py:51 | Finds a listen no other precedes under `asc`/`desc`. |
| `SqlDbGateway.OrderAndLimit` | listens/gateways/sqlalchemy_db_gateway/sqlalchemy_db_gateway.py:50-53 | ORDER BY time then LIMIT yields an ordered page of its candidates. |
| `UseListens.SubmitRun` | listens/use_listens.py:30-47 | The catalog is asked first. An unknown song raises InvalidSongError with no other call. The sunlight window is fetched second, for the input's timezone and local date, only for a known song. The listen is stored third only in daytime. Night raises SunlightError with nothing stored. The stored listen is announced fourth. Success means all four calls ran, and the result is the stored listen. Gateway and day-rule exceptions pass through unchanged. |
| `UseListens.SubmitListen` | listens/use_listens.py:30-47 | The result and the logged calls are those of `SubmitRun` for the gateways' answers. A row is added, and the next key advances by one, exactly when `AddListen` was called; otherwise the store is unchanged. A listen is announced exactly on success. |
| `UseListens.GetListen` | listens/use_listens.py:13-14 | Returns the store's answer for the id unchanged. |
| `UseListens.GetListens` | listens/use_listens.py:17-27 | Passes limit, order and both bounds to the store unchanged and returns its page. |
| `Rest.WordRun` | listens/delivery/aws_lambda/rest.py:138 | The greedy extent of `[\d\w]+`: all word characters, ending at a non-word character or at the end. |
| `Rest.MatchItemRoute` | listens/delivery/aws_lambda/rest.py:138 | A match starts with `/listens/`, covers at least one word character after it, stops at a non-word character or the end, and is absent exactly for paths that are not item paths. |
| `Rest.MatchItemRouteIsPrefixMatch` | listens/delivery/aws_lambda/rest.py:138 | `re.match` succeeds exactly on paths that start with `/listens/` and then a word character, whatever follows. |
| `Rest.Router` | listens/delivery/aws_lambda/rest.py:120-142 | POST `/listens` goes to submit, GET `/listens` to list, and GET on an item path to fetch-one. Each holds if and only if its condition does. Every other method/path raises RuntimeError. |
| `Rest.RouterExamples` | listens/delivery/aws_lambda/rest.py:123-131 | The documented routes, plus POST `/listens/1`, GET `/listens/` and DELETE `/listens` refused. |
| `LambdaUtil.CatchListensServiceErrors` | listens/delivery/aws_lambda/util.py:77-105 | A returned response passes through unchanged. InvalidIanaTimezoneError and InvalidSongError give 400, SunlightError 428 and ListenDoesntExistError 404, each with the exception's message. Everything else, SunlightServiceError included, is re-raised unchanged. |
| `LambdaUtil.Upper` | listens/delivery/aws_lambda/util.py:40 | Same length, each ASCII letter upper-cased; no lower-case ASCII letter remains and every other character is unchanged. |
| `LambdaUtil.SortOrderFromText` | listens/delivery/aws_lambda/util.py:40 | The member whose name is the upper-cased text, else KeyError of that name. |
| `LambdaUtil.SortOrderIgnoresCase` | listens/delivery/aws_lambda/util.py:40 | `descending`, `Descending`, `ascending` and `Ascending` all select their member. |
| `LambdaUtil.PluckGetListensParams` | listens/delivery/aws_lambda/util.py:38-47 | The limit defaults to 20 and the order to ascending, in any letter case. Each bound is present exactly when its key is, parsed from it. The first failing step's exception is raised. |
| `LambdaUtil.DefaultListingParams` | listens/delivery/aws_lambda/util.py:38-47 | With no parameters: limit 20, ASCENDING, no bounds. |
| `LambdaUtil.ProviderNamed` | listens/delivery/aws_lambda/util.py:69 | `MusicProvider[name]` succeeds only for `SPOTIFY`, else KeyError. |
| `LambdaUtil.TextField` | listens/delivery/aws_lambda/util.py:68-72 | `raw[key]` read as text: succeeds exactly for a string value and returns it; KeyError of the key when absent. |
| `LambdaUtil.PluckListenInput` | listens/delivery/aws_lambda/util.py:66-74 | Succeeds exactly when all five body keys are present with usable values. The listen time is the given current time, and the other fields are copied from the body. The first failing field in reading order decides the error: KeyError of a missing key, KeyError of an unknown provider name (`None` for null), TypeError for a null text field. |
| `LambdaUtil.BodyTimeIgnored` | listens/delivery/aws_lambda/util.py:66-74 | A `listen_time_utc` in the body changes nothing. |
| `LambdaUtil.BuildListen` | listens/delivery/aws_lambda/util.py:54-63 | Exactly the seven Listen fields, the provider by name, an absent note as null. |
| `LambdaUtil.BuildThenPluck` | listens/delivery/aws_lambda/util.py:54-74 | A response listen read back as a request body, at the listen's time, gives the listen's input again. |

## Left out

- `LambdaUtil.CatchListensServiceErrors`: the traceback logged before an uncaught exception is re-raised is output only and is not modelled.
- The day rules `local_date` and `is_day` come from listens/entities/day.py, which is not part of this model. They enter as the two functions of a `DayEntity`. `local_date` may raise (for an invalid timezone, say), and its exception propagates.
- The gateway clients (Spotify, the sunlight HTTP service, SNS) are network I/O. Each gateway answers through a function given when it is built. The abstract interfaces are these classes rather than interfaces with several implementations.
- The handler bodies, `handler`, `create_default_context`, environment variables, `datetime.utcnow`, JSON encoding, Sentry/X-Ray set-up and connection disposal are I/O and wiring. `persist_schema` and `close_connections` are library calls.
- ISO-8601 parsing and rendering, and `int(...)`, are library code. They enter as functions: `Parsers` and the `isoformat` argument of `BuildListen`. The text of library exceptions is not modelled (`ValueError`, `TypeError` and `DataError` carry none).
- The SQL engine's column limits are not enforced: String(30/50/100/40), the nullability of columns, and the `created_at_utc`/`updated_on_utc` columns. PostgreSQL would raise on an over-long value, for instance a listener name of 31 characters, since submission does not call `check_invalid`.
- `SqlDbGateway.IdMatches`: a text id names a key only when it is a plain digit string. Signs, surrounding spaces and other numeric spellings such as `1.0`, which the databases also accept, are not modelled. A non-numeric id gives ListenDoesntExistError as SQLite does; PostgreSQL raises a data error instead. This follows SQLite because the behaviour tests run against SQLite (faasport.py:29).
- `SqlDbGateway.ListenStore.FetchListens`: a negative limit raises, as in PostgreSQL. SQLite would treat it as "no limit". This follows PostgreSQL because the deployed service uses its driver, psycopg2 (listens/delivery/aws_lambda/rest.py:25).
- Keys come from a counter. A database sequence can skip values, for instance after a failed insert; any skipping sequence keeps them fresh and increasing, which is all the lemmas use.
- `LambdaUtil.Upper` upper-cases ASCII letters only. Python's `str.upper` also maps characters such as U+017F to `S`, so a few non-ASCII spellings of the sort order that Python accepts are refused here.
- `Rest.IsWordChar` is `[A-Za-z0-9_]`. Python's Unicode `\w` also matches non-ASCII letters and digits, which route to the item handler in the service but not in the model.
- `Rest.Router` takes the method and path as strings. A missing `httpMethod` or `path` key in the event (a KeyError) is not modelled.
- `LambdaUtil.TextField` and `LambdaUtil.PluckListenInput`: a JSON null in a text field is a TypeError here, whereas `raw[key]` returns None and the service carries it along. `LambdaUtil.PluckListenInput` reads only string or null JSON values. A null `song_provider` is `KeyError('None')`, as `MusicProvider[None]` raises.
- The source does not check that `sunrise_utc < sunset_utc`, and neither does the model.
- The database slot of a `Context` (`context.dfy`) is the SQL store `ListenStore` itself, not any implementation of the database gateway interface, so `UseListens.SubmitListen`, `UseListens.GetListen` and `UseListens.GetListens` are proved against the SQL store only. Its add never fails, so the case where storing raises, the exception propagates and nothing is announced is not modelled.
- Concurrent invocations and connection-level safety belong to the store's database and are not modelled.
