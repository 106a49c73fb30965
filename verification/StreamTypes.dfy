/** States, errors and results of a stream, shared by its receive and send halves. */
module StreamTypes {
  import opened Common

  /** A native status, as far as the stream distinguishes it; `Aborted` is aborted or invalid state, and
      `Unnamed` a failure for which the bindings have no name. */
  datatype Status = Success | LimitReached | Aborted | OtherStatus(code: nat) | Unnamed(raw: nat)

  datatype ConnectionError = ShutdownByTransport(status: nat, code: nat) | ShutdownByPeer(code: nat) | ShutdownByLocal

  /** The life of the stream itself. */
  datatype Life = Opened | Starting | Started | Completed

  /** The state of either half. */
  datatype Half = Closed | Start | StartComplete | Shutdown | ShutdownComplete

  datatype ReadError =
    | NotReadable | Reset(code: nat) | ReadCancelledOnLoss | ReadConnectionLost(error: ConnectionError) | ReadOther(status: nat)

  datatype WriteError =
    | NotWritable | WriteFinished | Stopped(code: nat) | WriteCancelledOnLoss
    | WriteConnectionLost(error: ConnectionError) | WriteOther(status: nat)

  /** The fields both halves read. */
  datatype Shared = Shared(
    bidirectional: bool,
    life: Life,
    startStatus: Option<Status>,
    cancelledOnLoss: bool,
    connError: Option<ConnectionError>,
    startWaiters: seq<Task>)

  /** The connection error a ShutdownComplete event carries. */
  datatype Loss = NoLoss | Loss(byApp: bool, remotely: bool, code: nat, status: nat)

  /** What MsQuic has indicated about a stream: the last status of its start, a cancellation on loss, the last
      code with which the peer aborted this half, and what ShutdownComplete carried. */
  datatype Past = Past(status: Option<Status>, cancelled: bool, code: Option<nat>, ending: Option<Loss>)

  const NOTHING := Past(None, false, None, None)

  /** Why the connection of the stream was lost, as far as that has been indicated: the local application, the
      peer's, or else the transport. */
  function Reason(p: Past): Option<ConnectionError> {
    if p.ending.None? || p.ending.value.NoLoss? then None
    else if !p.ending.value.byApp then Some(ShutdownByTransport(p.ending.value.status, p.ending.value.code))
    else if !p.ending.value.remotely then Some(ShutdownByLocal)
    else Some(ShutdownByPeer(p.ending.value.code))
  }

  function LossError(loss: Loss, current: Option<ConnectionError>): Option<ConnectionError> {
    if loss.NoLoss? then current
    else if loss.byApp && loss.remotely then Some(ShutdownByPeer(loss.code))
    else if loss.byApp then Some(ShutdownByLocal)
    else Some(ShutdownByTransport(loss.status, loss.code))
  }

  /** The first ShutdownComplete makes the reason what it says. */
  lemma {:induction false} LossIsTheReason(p: Past, loss: Loss)
    requires p.ending.None?
    ensures Reason(p) == None && LossError(loss, None) == Reason(p.(ending := Some(loss)))
  {
  }
}
