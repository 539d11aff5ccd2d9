/**
 * The record types of the listens service (listens/definitions/) and its
 * exception taxonomy (listens/definitions/exceptions.py). Instants are whole
 * seconds since an epoch, in UTC.
 */
module Definitions {
  import opened Wrappers

  /** The catalog providers; SPOTIFY is the only member. */
  datatype MusicProvider = Spotify

  /** The order listens are listed in, by listen time. */
  datatype SortOrder = Ascending | Descending

  /** A calendar date in some timezone. */
  datatype Date = Date(year: int, month: int, day: int)

  /** Sunrise and sunset, both as UTC instants, for one timezone on one date. */
  datatype SunlightWindow = SunlightWindow(sunriseUtc: int, sunsetUtc: int)

  /** What a caller submits; `listenTimeUtc` is set by the service, not the caller. */
  datatype ListenInput = ListenInput(
    songId: string,
    songProvider: MusicProvider,
    listenerName: string,
    listenTimeUtc: int,
    note: Option<string>,
    ianaTimezone: string)

  /** A stored listen: the input's fields plus the identifier the store gave it. */
  datatype Listen = Listen(
    id: string,
    songId: string,
    songProvider: MusicProvider,
    listenerName: string,
    listenTimeUtc: int,
    note: Option<string>,
    ianaTimezone: string)

  /** The ListenInput a Listen was made from. */
  function InputOf(listen: Listen): ListenInput {
    ListenInput(listen.songId, listen.songProvider, listen.listenerName,
                listen.listenTimeUtc, listen.note, listen.ianaTimezone)
  }

  /** The per-field report of an invalid input, in the order the fields were checked. */
  datatype InvalidReason = InvalidReason(errorMessageByField: seq<(string, string)>)

  /** The subclasses of ListensServiceException. */
  datatype ServiceErrorKind =
    | InvalidIanaTimezoneError
    | InvalidSongError
    | SunlightError
    | SunlightServiceError
    | ListenDoesntExistError

  /**
   * An exception raised somewhere in the service: one of the service's own,
   * or one of the library exceptions the modelled code can raise.
   */
  datatype Exception =
    | ServiceException(kind: ServiceErrorKind, message: string)
    | RuntimeError(message: string)
    | KeyError(key: string)
    | ValueError
    | OtherException(name: string)
}
