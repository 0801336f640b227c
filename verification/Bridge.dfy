/** What every component of the bridge shares: wrappers, wire codes and the completion record. */
module Bridge {
  datatype Option<+T> = None | Some(value: T)

  datatype KtError =
    | InvalidArgument
    | StaleHandle
    | WrongHandleKind
    | Shutdown
    | WorkerShutDown
    | Cancelled
    | BufferTooSmall
    | Failed

  datatype Result<+T> = Ok(value: T) | Err(error: KtError)

  newtype byte = x: int | 0 <= x < 256

  const KT_OK: int := 0
  const KT_ERR_PANIC: int := -1
  const KT_ERR_SHUTDOWN: int := -5
  const KT_ERR_CANCELLED: int := -7
  const KT_ERR_FAILED: int := -8

  datatype KtKind =
    | Ack
    | ClientConnected
    | Rpc
    | TaskWorkflowActivation
    | TaskActivity
    | TaskNexus
    | TaskStreamEnd
    | WorkerFailed
    | EphemeralStarted
    | ServerLog
    | Log

  /** A completion before its payload is copied into a poller's slab. */
  datatype Pending = Pending(reqId: nat, kind: KtKind, status: int, payload: seq<byte>, aux0: nat, aux1: nat) {

    /** The handle a dropped completion would release, if any. */
    function Carried(): Option<nat> {
      if status == KT_OK && aux0 != 0 && (kind == ClientConnected || kind == EphemeralStarted) then Some(aux0)
      else None
    }
  }

  function ErrorOf(reqId: nat, status: int, message: seq<byte>): Pending {
    Pending(reqId, Ack, status, message, 0, 0)
  }

  function Min(a: nat, b: nat): nat {
    if a <= b then a else b
  }

  function Max(a: nat, b: nat): nat {
    if a <= b then b else a
  }

  /** Splitting a sequence at its last element. */
  lemma SplitLast<T>(s: seq<T>)
    requires s != []
    ensures s == s[..|s| - 1] + [s[|s| - 1]]
  {
  }
}
