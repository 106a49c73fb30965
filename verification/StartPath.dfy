/** Starting a locally opened stream. */
module StartPath {
  import opened Common
  import opened Sync
  import opened StreamTypes

  datatype StartError = StartLimitReached | StartConnectionLost(error: ConnectionError) | StartOther(status: Status)

  /** `Panics` is the `expect("conn_error")` of the source, or its `unwrap` of a status without a name. */
  datatype StartResult = Parked | Accepted | StartFailed(error: StartError) | Panics

  datatype StartStep = StartStep(shared: Shared, recv: Half, send: Half, result: StartResult)

  /** `poll_start`; `failure` is the status of the native start, if it is refused. */
  function PollStart(sh: Shared, recv: Half, send: Half, cx: Task, failure: Option<Status>): StartStep {
    if sh.life == Opened && failure.Some? then
      StartStep(sh, recv, send, StartFailed(StartOther(failure.value)))
    else if sh.life == Opened then
      StartStep(sh.(life := Starting, startWaiters := Registered(sh.startWaiters, cx)),
                if sh.bidirectional then Start else recv, Start, Parked)
    else if sh.life == Starting then
      StartStep(sh.(startWaiters := Registered(sh.startWaiters, cx)), recv, send, Parked)
    else
      StartStep(sh, recv, send,
                match sh.startStatus
                case None => Accepted
                case Some(Success) => Accepted
                case Some(LimitReached) => StartFailed(StartLimitReached)
                case Some(Aborted) =>
                  if sh.connError.Some? then StartFailed(StartConnectionLost(sh.connError.value)) else Panics
                case Some(Unnamed(_)) => Panics
                case Some(other) => StartFailed(StartOther(other)))
  }
}
