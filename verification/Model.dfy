/** The domain records as values. */
module Model {
  import opened Text
  import opened TimeCodec

  datatype Status = New | Up | Down | Paused

  datatype PingType = Success | Start | Fail

  datatype AlertType = AlertDown | AlertUp | AlertFail

  /** A monitored job; nil pointers are None. */
  datatype Check = Check(
    id: string,
    name: string,
    slug: Option<string>,
    schedule: string,
    grace: nat,
    status: Status,
    prePauseStatus: Option<Status>,
    lastPingAt: Option<Instant>,
    nextExpectedAt: Option<Instant>,
    createdAt: Instant,
    updatedAt: Instant,
    tags: string,
    notifyOnFail: bool)
  {
    /** The status, looking through a pause. */
    function Effective(): Status
    {
      if status == Paused then (if prePauseStatus.Some? then prePauseStatus.value else New) else status
    }
  }

  datatype Channel = Channel(id: nat, kind: string, name: string, config: string, createdAt: string)

  datatype AlertEvent = AlertEvent(check: Check, channel: Channel, alert: AlertType)
}
