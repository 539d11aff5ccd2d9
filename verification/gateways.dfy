/**
 * The catalog, sunlight and notification gateways the use-cases are written
 * against (listens/abc/music_gateway.py, listens/abc/sunlight_gateway.py,
 * listens/gateways/notification_gateway_abc.py), and the day rules of
 * listens/entities/day.py, which the model takes as given functions.
 *
 * Each gateway is a class whose answers are fixed by a function supplied when
 * it is built, standing for whichever concrete client is wired in. Every call
 * is appended to a shared ghost CallLog, so the order of calls across
 * gateways can be stated.
 */
module Gateways {
  import opened Wrappers
  import opened Definitions

  /** One call to a gateway, with its arguments. */
  datatype Call =
    | SongExists(songId: string, songProvider: MusicProvider)
    | FetchSunlightWindow(ianaTimezone: string, onDate: Date)
    | AddListen(listenInput: ListenInput)
    | AnnounceListenAdded(listen: Listen)

  /** The record of gateway calls, oldest first. */
  class CallLog {
    ghost var calls: seq<Call>

    constructor ()
      ensures calls == []
    {
      calls := [];
    }
  }

  /**
   * `local_date(instant, timezone)` and `is_day(instant, window)`. Their
   * definitions are not part of this model; `localDate` may fail, for
   * instance on an unknown timezone.
   */
  datatype DayEntity = DayEntity(
    localDate: (int, string) -> Result<Date, Exception>,
    isDay: (int, SunlightWindow) -> bool)

  /** MusicGateway: does the catalog know a song? */
  class MusicGateway {
    const catalog: (string, MusicProvider) -> Result<bool, Exception>
    ghost const log: CallLog

    constructor (catalog: (string, MusicProvider) -> Result<bool, Exception>, ghost log: CallLog)
      ensures this.catalog == catalog && this.log == log
    {
      this.catalog := catalog;
      this.log := log;
    }

    method SongExists(songId: string, songProvider: MusicProvider) returns (r: Result<bool, Exception>)
      modifies log
      ensures r == catalog(songId, songProvider)
      ensures log.calls == old(log.calls) + [Call.SongExists(songId, songProvider)]
    {
      r := catalog(songId, songProvider);
      log.calls := log.calls + [Call.SongExists(songId, songProvider)];
    }
  }

  /** SunlightGateway: the sunrise/sunset window of a timezone on a date. */
  class SunlightGateway {
    const sunlight: (string, Date) -> Result<SunlightWindow, Exception>
    ghost const log: CallLog

    constructor (sunlight: (string, Date) -> Result<SunlightWindow, Exception>, ghost log: CallLog)
      ensures this.sunlight == sunlight && this.log == log
    {
      this.sunlight := sunlight;
      this.log := log;
    }

    method FetchSunlightWindow(ianaTimezone: string, onDate: Date) returns (r: Result<SunlightWindow, Exception>)
      modifies log
      ensures r == sunlight(ianaTimezone, onDate)
      ensures log.calls == old(log.calls) + [Call.FetchSunlightWindow(ianaTimezone, onDate)]
    {
      r := sunlight(ianaTimezone, onDate);
      log.calls := log.calls + [Call.FetchSunlightWindow(ianaTimezone, onDate)];
    }
  }

  /** NotificationGateway: publishes that a listen was added. */
  class NotificationGateway {
    /** The listens announced so far. */
    var announced: seq<Listen>
    /** Whether publishing a given listen raises. */
    const publish: Listen -> Outcome<Exception>
    ghost const log: CallLog

    constructor (publish: Listen -> Outcome<Exception>, ghost log: CallLog)
      ensures this.publish == publish && this.log == log && announced == []
    {
      this.publish := publish;
      this.log := log;
      announced := [];
    }

    method AnnounceListenAdded(listen: Listen) returns (r: Outcome<Exception>)
      modifies this, log
      ensures r == publish(listen)
      ensures announced == if r.Pass? then old(announced) + [listen] else old(announced)
      ensures log.calls == old(log.calls) + [Call.AnnounceListenAdded(listen)]
    {
      r := publish(listen);
      if r.Pass? {
        announced := announced + [listen];
      }
      log.calls := log.calls + [Call.AnnounceListenAdded(listen)];
    }
  }
}
