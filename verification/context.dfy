/** The bundle of gateways a use-case runs against (listens/context.py). */
module ListensContext {
  import opened Gateways
  import opened SqlDbGateway

  datatype Context = Context(
    dbGateway: ListenStore,
    musicGateway: MusicGateway,
    notificationGateway: NotificationGateway,
    sunlightGateway: SunlightGateway)
  {
    /** The store is well formed and all four gateways record into one log. */
    ghost predicate Valid()
      reads dbGateway
    {
      && dbGateway.Valid()
      && musicGateway.log == dbGateway.log
      && notificationGateway.log == dbGateway.log
      && sunlightGateway.log == dbGateway.log
    }

    ghost function Log(): CallLog {
      dbGateway.log
    }
  }
}
