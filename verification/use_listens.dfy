/**
 * The use-cases of the listens service (listens/use_listens.py): submitting a
 * listen, fetching one, and listing them.
 */
module UseListens {
  import opened Wrappers
  import opened Definitions
  import opened Gateways
  import opened SqlDbGateway
  import opened ListensContext

  const NIGHT_MESSAGE := "Listens can only be submitted during the day."

  function UnknownSongMessage(songId: string): string {
    "Song " + songId + " doesnt exist."
  }

  /** What a submission returns or raises, and the gateway calls it makes, in order. */
  datatype Run = Run(outcome: Result<Listen, Exception>, calls: seq<Call>)

  /**
   * The submission workflow as a function of the gateways' answers: the
   * catalog's, the day rules', the sunlight service's, the listen the store
   * returns (`persisted`) and whether announcing it raises. Each step runs
   * only if every step before it succeeded, and any exception a gateway or
   * the day rules raise is passed on unchanged.
   */
  function SubmitRun(
    listenInput: ListenInput,
    day: DayEntity,
    catalog: (string, MusicProvider) -> Result<bool, Exception>,
    sunlight: (string, Date) -> Result<SunlightWindow, Exception>,
    persisted: Listen,
    publish: Listen -> Outcome<Exception>): (run: Run)
    // the catalog is always asked first, about the submitted song
    ensures 1 <= |run.calls| <= 4
    ensures run.calls[0] == Call.SongExists(listenInput.songId, listenInput.songProvider)
    // an unknown song: InvalidSongError, and no other gateway is called
    ensures catalog(listenInput.songId, listenInput.songProvider) == Success(false) ==>
              && run.outcome == Failure(ServiceException(InvalidSongError, UnknownSongMessage(listenInput.songId)))
              && |run.calls| == 1
    // the sunlight window is fetched, second, exactly when the song is known and the local date is found
    ensures |run.calls| >= 2 <==>
              && catalog(listenInput.songId, listenInput.songProvider) == Success(true)
              && day.localDate(listenInput.listenTimeUtc, listenInput.ianaTimezone).Success?
    ensures |run.calls| >= 2 ==>
              run.calls[1] == Call.FetchSunlightWindow(
                listenInput.ianaTimezone,
                day.localDate(listenInput.listenTimeUtc, listenInput.ianaTimezone).value)
    // the listen is stored, third, exactly when the window came back and the instant is in the day
    ensures |run.calls| >= 3 <==>
              && |run.calls| >= 2
              && var window := sunlight(listenInput.ianaTimezone, run.calls[1].onDate);
                 window.Success? && day.isDay(listenInput.listenTimeUtc, window.value)
    // night: SunlightError, nothing stored or announced
    ensures |run.calls| == 2 && sunlight(listenInput.ianaTimezone, run.calls[1].onDate).Success? ==>
              run.outcome == Failure(ServiceException(SunlightError, NIGHT_MESSAGE))
    // once stored, the stored listen is announced, fourth
    ensures |run.calls| >= 3 ==>
              && |run.calls| == 4
              && run.calls[2] == Call.AddListen(listenInput)
              && run.calls[3] == Call.AnnounceListenAdded(persisted)
    // success means every step ran and the announcement did not raise; the result is the stored listen
    ensures run.outcome.Success? <==> |run.calls| == 4 && publish(persisted).Pass?
    ensures run.outcome.Success? ==> run.outcome.value == persisted
    // exceptions pass through unchanged
    ensures catalog(listenInput.songId, listenInput.songProvider).Failure? ==>
              run.outcome == Failure(catalog(listenInput.songId, listenInput.songProvider).error)
    ensures catalog(listenInput.songId, listenInput.songProvider) == Success(true)
              && day.localDate(listenInput.listenTimeUtc, listenInput.ianaTimezone).Failure? ==>
              run.outcome == Failure(day.localDate(listenInput.listenTimeUtc, listenInput.ianaTimezone).error)
    ensures |run.calls| >= 2 && sunlight(listenInput.ianaTimezone, run.calls[1].onDate).Failure? ==>
              run.outcome == Failure(sunlight(listenInput.ianaTimezone, run.calls[1].onDate).error)
    ensures |run.calls| == 4 && publish(persisted).Fail? ==>
              run.outcome == Failure(publish(persisted).error)
  {
    var askCatalog := Call.SongExists(listenInput.songId, listenInput.songProvider);
    match catalog(listenInput.songId, listenInput.songProvider)
    case Failure(e) => Run(Failure(e), [askCatalog])
    case Success(known) =>
      if !known then
        Run(Failure(ServiceException(InvalidSongError, UnknownSongMessage(listenInput.songId))), [askCatalog])
      else
        match day.localDate(listenInput.listenTimeUtc, listenInput.ianaTimezone)
        case Failure(e) => Run(Failure(e), [askCatalog])
        case Success(onDate) =>
          var askSunlight := Call.FetchSunlightWindow(listenInput.ianaTimezone, onDate);
          match sunlight(listenInput.ianaTimezone, onDate)
          case Failure(e) => Run(Failure(e), [askCatalog, askSunlight])
          case Success(window) =>
            if !day.isDay(listenInput.listenTimeUtc, window) then
              Run(Failure(ServiceException(SunlightError, NIGHT_MESSAGE)), [askCatalog, askSunlight])
            else
              var calls := [askCatalog, askSunlight, Call.AddListen(listenInput), Call.AnnounceListenAdded(persisted)];
              match publish(persisted)
              case Fail(e) => Run(Failure(e), calls)
              case Pass => Run(Success(persisted), calls)
  }

  /**
   * submit_listen: checks the song, fetches the sunlight window for the local
   * date, refuses night-time listens, stores the listen and announces it.
   */
  method SubmitListen(context: Context, day: DayEntity, listenInput: ListenInput)
    returns (r: Result<Listen, Exception>)
    requires context.Valid()
    modifies context.Log(), context.dbGateway, context.notificationGateway
    ensures context.Valid()
    ensures var stored := BuildSqlListen(old(context.dbGateway.nextId), listenInput);
            var run := SubmitRun(listenInput, day, context.musicGateway.catalog, context.sunlightGateway.sunlight,
                                 PluckListen(stored), context.notificationGateway.publish);
            && r == run.outcome
            && context.Log().calls == old(context.Log().calls) + run.calls
            && context.dbGateway.rows
               == (if Call.AddListen(listenInput) in run.calls then old(context.dbGateway.rows) + [stored]
                   else old(context.dbGateway.rows))
            && context.dbGateway.nextId
               == old(context.dbGateway.nextId) + (if Call.AddListen(listenInput) in run.calls then 1 else 0)
            && context.notificationGateway.announced
               == (if r.Success? then old(context.notificationGateway.announced) + [r.value]
                   else old(context.notificationGateway.announced))
  {
    var songExists := context.musicGateway.SongExists(listenInput.songId, listenInput.songProvider);
    if songExists.Failure? {
      return Failure(songExists.error);
    }
    if !songExists.value {
      return Failure(ServiceException(InvalidSongError, UnknownSongMessage(listenInput.songId)));
    }

    var onDate := day.localDate(listenInput.listenTimeUtc, listenInput.ianaTimezone);
    if onDate.Failure? {
      return Failure(onDate.error);
    }
    var sunlightWindow := context.sunlightGateway.FetchSunlightWindow(listenInput.ianaTimezone, onDate.value);
    if sunlightWindow.Failure? {
      return Failure(sunlightWindow.error);
    }

    if !day.isDay(listenInput.listenTimeUtc, sunlightWindow.value) {
      return Failure(ServiceException(SunlightError, NIGHT_MESSAGE));
    }

    var listen := context.dbGateway.AddListen(listenInput);

    var announcement := context.notificationGateway.AnnounceListenAdded(listen);
    if announcement.Fail? {
      return Failure(announcement.error);
    }

    r := Success(listen);
  }

  /** get_listen: the store's answer for the id, unchanged. */
  method GetListen(context: Context, listenId: string) returns (r: Result<Listen, Exception>)
    ensures r == FindListen(context.dbGateway.rows, listenId)
  {
    r := context.dbGateway.FetchListen(listenId);
  }

  /** get_listens: the store's page for the same limit, order and bounds, unchanged. */
  method GetListens(context: Context, limit: int, sortOrder: SortOrder,
                    beforeUtc: Option<int>, afterUtc: Option<int>)
    returns (r: Result<seq<Listen>, Exception>)
    ensures r.Failure? <==> limit < 0
    ensures r.Success? ==>
              IsOrderedPage(r.value, Filtered(context.dbGateway.rows, beforeUtc, afterUtc), limit, sortOrder)
  {
    r := context.dbGateway.FetchListens(limit, sortOrder, beforeUtc, afterUtc);
  }

  const WHISPERS := "4rNGLh1y5Kkvr4bT28yfHU"
  const DAY_1530 := 1542036600  // 2018-11-12T15:30:00 UTC
  const NIGHT_2300 := 1542063600  // 2018-11-12T23:00:00 UTC
  const NEW_YORK_WINDOW := SunlightWindow(1542022804, 1542058826)  // 11:40:04 to 21:40:26 UTC

  /** The listen the submission scenarios send. */
  function ScenarioInput(listenTimeUtc: int): ListenInput {
    ListenInput(WHISPERS, Spotify, "geez", listenTimeUtc, Some("nice"), "America/New_York")
  }

  /** The scenarios' catalog knows one song. */
  function ScenarioCatalog(songId: string, provider: MusicProvider): Result<bool, Exception> {
    Success(songId == WHISPERS)
  }

  /** The scenarios' sunlight service gives the same window for any day. */
  function ScenarioSunlight(ianaTimezone: string, onDate: Date): Result<SunlightWindow, Exception> {
    Success(NEW_YORK_WINDOW)
  }

  /** The scenarios' notifications always publish. */
  function ScenarioPublish(listen: Listen): Outcome<Exception> {
    Pass
  }

  /** The day rules, replaced by constant stubs giving the scenarios' local date and verdict. */
  function StubDay(daytime: bool): DayEntity {
    DayEntity((t: int, tz: string) => Success(Date(2018, 11, 12)), (t: int, w: SunlightWindow) => daytime)
  }

  /**
   * A fresh context over an empty store for the submission scenarios of
   * features/steps/submit_listen_steps.py. Those steps freeze the clock and
   * answer the sunlight request with a fixed window; here the gateways answer
   * from constant functions instead.
   */
  method ScenarioContext() returns (context: Context)
    ensures context.Valid() && fresh(context.Log())
    ensures fresh(context.dbGateway) && fresh(context.notificationGateway)
    ensures context.dbGateway.rows == [] && context.dbGateway.nextId == 1
    ensures context.notificationGateway.announced == [] && context.Log().calls == []
    ensures context.musicGateway.catalog == ScenarioCatalog
    ensures context.sunlightGateway.sunlight == ScenarioSunlight
    ensures context.notificationGateway.publish == ScenarioPublish
  {
    var log := new CallLog();
    var db := new ListenStore(log);
    var music := new MusicGateway(ScenarioCatalog, log);
    var sunlight := new SunlightGateway(ScenarioSunlight, log);
    var notifications := new NotificationGateway(ScenarioPublish, log);
    context := Context(db, music, notifications, sunlight);
  }

  /** Daytime: the listen is stored under id "1" and returned with the input's fields. */
  method DaytimeScenario() {
    var context := ScenarioContext();
    var r := SubmitListen(context, StubDay(true), ScenarioInput(DAY_1530));
    assert r == Success(Listen("1", WHISPERS, Spotify, "geez", DAY_1530, Some("nice"), "America/New_York"));
    assert |context.dbGateway.rows| == 1;
    assert context.Log().calls[1] == Call.FetchSunlightWindow("America/New_York", Date(2018, 11, 12));
  }

  /** Night-time: SunlightError and nothing stored; a later daytime listen still gets id "1". */
  method NightThenDayScenario() {
    var context := ScenarioContext();
    var r := SubmitListen(context, StubDay(false), ScenarioInput(NIGHT_2300));
    assert r.Failure? && r.error.kind == SunlightError;
    assert context.dbGateway.rows == [] && context.notificationGateway.announced == [];
    assert context.dbGateway.nextId == 1;

    r := SubmitListen(context, StubDay(true), ScenarioInput(DAY_1530));
    assert r.Success? && r.value.id == "1";
  }
}
