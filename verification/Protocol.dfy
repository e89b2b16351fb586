/** Messages, limits and errors that the other modules share. */
module Protocol {
  import opened Prelude

  const MAX_FRAME: nat := 4 * 1024 * 1024
  const OUTPUT_LIMIT: nat := 256 * 1024
  const MAX_EXEC_SECONDS: nat := 60
  const MAX_HISTORY_QUERY: nat := 1000

  type u64 = x: int | 0 <= x < 0x1_0000_0000_0000_0000
  type i32 = x: int | -0x8000_0000 <= x < 0x8000_0000

  /** Declared in the source's order, which is also the order of its map keys. */
  datatype ProbeKind = Host | Lan | Wan | Services | Peers

  const ALL_KINDS: set<ProbeKind> := {Host, Lan, Wan, Services, Peers}

  lemma EveryKindIsListed(kind: ProbeKind)
    ensures kind in ALL_KINDS
  {
    match kind { case Host => case Lan => case Wan => case Services => case Peers => }
  }

  datatype FailureKind =
    | TimedOut
    | NoAddress
    | Refused
    | Unreachable
    | Unauthorized
    | ConnectionLost
    | Dns
    | RemoteFault
    | Other

  datatype Record = Record(
    kind: ProbeKind,
    target: string,
    labelName: Option<string>,
    methodName: string,
    observedAt: u64,
    durationMs: u64,
    success: bool,
    error: Option<string>,
    errorKind: Option<FailureKind>,
    lastSuccessAt: Option<u64>,
    data: Option<string>)

  /**
   What a reply says: the request was run and its dispatch succeeded or not, it was
   refused, or the local daemon could not forward it. All but a success reach the
   user as an error text.
   */
  datatype Response = Served(ok: bool) | Busy | NotForwarded(error: Error)

  datatype Error =
    | Io(ioKind: FailureKind)
    | Transport(kind: FailureKind)
    | FrameTooLarge
    | BadMessage
    | Core(coreKind: FailureKind)
    | IdentityBusy
    | Timeout
    | OutcomeUnknown(cause: Error)
    | ProbeFailed(shared: Error)
    | ProbeCancelled
    | Remote(message: string)
    | Invalid(reason: string)
  {
    /** Why the operation failed; wrappers answer for what they wrap. */
    function FailureKind(): FailureKind {
      match this
      case Io(kind) => kind
      case Transport(kind) => kind
      case Core(kind) => kind
      case Timeout => TimedOut
      case OutcomeUnknown(cause) => cause.FailureKind()
      case ProbeFailed(shared) => shared.FailureKind()
      case Remote(_) => RemoteFault
      case _ => Other
    }
  }
}
