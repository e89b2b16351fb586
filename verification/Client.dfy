/** Where the CLI sends a request. */
module Client {
  import opened Prelude
  import opened Protocol

  datatype Request = Health | Probe(kind: ProbeKind) | HistoryQuery | Exec

  datatype Route = InProcess | DaemonOrInProcess | DaemonOrEndpoint | DaemonOnly

  /** `self` names this node. */
  function TargetOf(target: Option<string>): Option<string> {
    if target == Some("self") then None else target
  }

  function RouteOf(target: Option<string>, request: Request): Route {
    match (target, request)
    case (Some(_), _) => DaemonOrEndpoint
    case (None, HistoryQuery) => DaemonOnly
    case (None, Probe(Peers)) => DaemonOrEndpoint
    case (None, Probe(_)) => DaemonOrInProcess
    case (None, _) => InProcess
  }

  /** An exec runs in this process if and only if it is for this node; then no daemon is involved. */
  lemma ExecRoute(target: Option<string>)
    ensures RouteOf(TargetOf(target), Exec) ==
            if target.None? || target == Some("self") then InProcess else DaemonOrEndpoint
  {}
}
