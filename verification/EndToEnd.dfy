/**
 A whole exec, from the CLI through the local daemon or a temporary endpoint to the
 target node. The world joins the CLI's routing with two daemons' admission and
 with the dialers that carry requests to peers; every part may fail at any point.
 */
module EndToEnd {
  import opened Prelude
  import opened Protocol
  import opened Client
  import A = Admission
  import D = Dialer

  /** `peer` is what the alias resolves to; sizes are those of the two encoded messages. */
  datatype Invocation = Invocation(
    target: Option<string>,
    peer: Option<D.PeerId>,
    request: Request,
    localSize: nat,
    size: nat)
  {
    function Route(): Client.Route {
      RouteOf(TargetOf(target), request)
    }

    predicate Remote() {
      TargetOf(target).Some?
    }
  }

  datatype Phase =
    | Starting
    | Asking                    // the local request was submitted to the daemon's socket
    | FellBack                  // no daemon listens
    | OnOwnEndpoint             // calling from a temporary endpoint
    | Done(result: Result<Response, Error>)
    | Killed

  /** `asked` says that the local request was submitted to the daemon's socket; `ranHere` counts runs in this process. */
  datatype Cli = Cli(what: Invocation, asked: bool, ranHere: nat, phase: Phase)

  datatype World = World(
    clis: map<nat, Cli>,
    daemon: A.State,
    dialer: D.State,              // the daemon's
    temps: map<nat, D.State>,     // one per CLI that fell back to its own endpoint
    targetId: D.PeerId,
    target: A.State)

  datatype Move =
    | Invoke(inv: nat, what: Invocation)
    | RunInProcess(inv: nat, ok: bool)
    | Connect(inv: nat)
    | NoDaemon(inv: nat)
    | ConnectFails(inv: nat, error: Error)
    | Answered(inv: nat, ok: bool)
    | AskFails(inv: nat, error: Error)
    | NoFallback(inv: nat, error: Error)
    | BindEndpoint(inv: nat, peers: set<D.PeerId>)
    | OwnReturns(inv: nat)
    | Kill(inv: nat)
    | ReadLocal(inv: nat)
    | FinishLocal(inv: nat)
    | DaemonMoves(admission: A.Step)
    | DialerMoves(dial: D.Step)
    | TempMoves(inv: nat, dial: D.Step)
    | TargetMoves(admission: A.Step)

  function Start(max: nat, peers: set<D.PeerId>, targetId: D.PeerId, targetMax: nat): World {
    World(map[], A.Init(max), D.Init(peers), map[], targetId, A.Init(targetMax))
  }

  predicate CliIn(w: World, inv: nat, phase: Phase) {
    inv in w.clis && w.clis[inv].phase == phase
  }

  function Advance(w: World, inv: nat, phase: Phase): map<nat, Cli>
    requires inv in w.clis
  {
    w.clis[inv := w.clis[inv].(phase := phase)]
  }

  function CallOf(inv: nat): D.CallId {
    D.ForInvocation(inv)
  }

  // ---------------------------------------------------------------- the wire

  /** The streams that a sender wrote requests on: origin 0 is the daemon, `inv + 1` a temporary endpoint. */
  function SentBy(w: World, origin: nat): seq<D.Stream> {
    if origin == 0 then w.dialer.streams
    else if origin - 1 in w.temps then w.temps[origin - 1].streams
    else []
  }

  function ConnsOf(w: World, origin: nat): seq<D.Conn> {
    if origin == 0 then w.dialer.conns
    else if origin - 1 in w.temps then w.temps[origin - 1].conns
    else []
  }

  /** Something was written on this stream, on a connection to the target. */
  predicate OnWire(w: World, id: A.StreamId) {
    && id.index < |SentBy(w, id.origin)|
    && SentBy(w, id.origin)[id.index].conn < |ConnsOf(w, id.origin)|
    && ConnsOf(w, id.origin)[SentBy(w, id.origin)[id.index].conn].peer == w.targetId
  }

  /** The stream carries the request of invocation `inv`. */
  predicate Carries(w: World, id: A.StreamId, inv: nat) {
    id.index < |SentBy(w, id.origin)| && SentBy(w, id.origin)[id.index].call == CallOf(inv)
  }

  function PeerWrites(w: World, inv: nat): nat {
    D.Writes(w.dialer.streams, CallOf(inv)) +
    if inv in w.temps then D.Writes(w.temps[inv].streams, CallOf(inv)) else 0
  }

  /** How often the target dispatched a request of this invocation. */
  function TargetRuns(w: World, dispatched: seq<A.Source>, inv: nat): nat {
    if dispatched == [] then 0
    else
      var last := dispatched[|dispatched| - 1];
      TargetRuns(w, dispatched[..|dispatched| - 1], inv) +
      if last.FromPeer? && Carries(w, last.id, inv) then 1 else 0
  }

  // ---------------------------------------------------------------- moves

  /** The daemon serves a local request: it forwards a remote one and dispatches its own. */
  function DoReadLocal(w: World, inv: nat): World
    requires inv in w.clis && A.LocalIs(w.daemon, inv, A.Reading) && CallOf(inv) !in w.dialer.calls
  {
    var what := w.clis[inv].what;
    var daemon := A.DoLocalRead(w.daemon, inv);
    if daemon.locals[inv].Running? && what.Remote() && what.peer.Some? then
      w.(daemon := daemon,
         dialer := D.Apply(w.dialer, D.Begin(CallOf(inv), what.peer.value, what.request.Exec?, what.size)))
    else w.(daemon := daemon)
  }

  predicate AnswerReady(w: World, inv: nat) {
    inv in w.daemon.locals && w.daemon.locals[inv].Ended? && w.daemon.locals[inv].end.Answered?
  }

  predicate CallReturned(s: D.State, inv: nat) {
    CallOf(inv) in s.calls && s.calls[CallOf(inv)].phase.Returned?
  }

  /**
   The daemon's answer: a refusal, what the forwarded call came to, or the outcome of
   its own dispatch. An alias it does not know is not forwarded.
   */
  function AnswerOf(w: World, inv: nat, ok: bool): Response
    requires inv in w.clis && AnswerReady(w, inv)
  {
    if w.daemon.locals[inv].end.busy then Busy
    else if CallReturned(w.dialer, inv) then
      match w.dialer.calls[CallOf(inv)].phase.result
      case Ok(response) => response
      case Err(error) => NotForwarded(error)
    else if w.clis[inv].what.Remote() then NotForwarded(Invalid("unknown peer"))
    else Served(ok)
  }

  /** The target made this reply to the request that call `c` wrote as a stream of `origin`. */
  predicate RepliedTo(target: A.State, origin: nat, s: D.State, c: D.CallId, busy: bool) {
    exists i :: 0 <= i < |s.streams| && s.streams[i].call == c && HasReply(target, A.StreamId(origin, i), busy)
  }

  predicate HasReply(target: A.State, id: A.StreamId, busy: bool) {
    id in target.streams && target.streams[id].phase.Answers(busy)
  }

  /** Peers do not forward, and a reply from the target is one that it made. */
  predicate MayReply(w: World, origin: nat, s: D.State, step: D.Step) {
    step.Replied? && step.c in s.calls ==>
      && !step.response.NotForwarded?
      && (s.calls[step.c].peer == w.targetId ==>
            RepliedTo(w.target, origin, s, step.c, step.response.Busy?))
  }

  /** Locals enter and are read through their own moves only. */
  predicate DaemonMayMove(step: A.Step) {
    !step.LocalConnect? && !step.LocalRead? && !step.LocalFinish?
  }

  predicate TargetMayMove(w: World, step: A.Step) {
    step.Accept? ==> OnWire(w, step.id)
  }

  predicate Possible(w: World, move: Move) {
    match move
    case Invoke(inv, _) => inv !in w.clis
    case RunInProcess(inv, _) =>
      && inv in w.clis
      && ((w.clis[inv].phase.Starting? && w.clis[inv].what.Route().InProcess?) ||
          (w.clis[inv].phase.FellBack? && w.clis[inv].what.Route().DaemonOrInProcess?))
    case Connect(inv) =>
      && CliIn(w, inv, Starting) && !w.clis[inv].what.Route().InProcess?
      && A.Enabled(w.daemon, A.LocalConnect(inv))
    case NoDaemon(inv) => CliIn(w, inv, Starting) && !w.clis[inv].what.Route().InProcess?
    case ConnectFails(inv, error) =>
      CliIn(w, inv, Starting) && !w.clis[inv].what.Route().InProcess? && error.Io?
    case Answered(inv, _) => CliIn(w, inv, Asking) && AnswerReady(w, inv)
    case AskFails(inv, error) => CliIn(w, inv, Asking) && (error.Timeout? || D.Reported(error))
    case NoFallback(inv, error) =>
      CliIn(w, inv, FellBack) && (error.Invalid? || error.IdentityBusy? || error.Io? || error.Transport?)
    case BindEndpoint(inv, peers) =>
      && CliIn(w, inv, FellBack) && w.clis[inv].what.Route().DaemonOrEndpoint?
      && w.clis[inv].what.Remote() && w.clis[inv].what.peer.Some? && inv !in w.temps
    case OwnReturns(inv) => CliIn(w, inv, OnOwnEndpoint) && inv in w.temps && CallReturned(w.temps[inv], inv)
    case Kill(inv) => inv in w.clis && !w.clis[inv].phase.Done?
    case ReadLocal(inv) =>
      && inv in w.clis && A.Enabled(w.daemon, A.LocalRead(inv)) && CallOf(inv) !in w.dialer.calls
    case FinishLocal(inv) =>
      && A.Enabled(w.daemon, A.LocalFinish(inv))
      && (CallOf(inv) in w.dialer.calls ==> CallReturned(w.dialer, inv))
    case DaemonMoves(step) => A.Enabled(w.daemon, step) && DaemonMayMove(step)
    case DialerMoves(step) =>
      && D.Enabled(w.dialer, step) && (step.Begin? ==> step.c.Background?)
      && MayReply(w, 0, w.dialer, step)
    case TempMoves(inv, step) =>
      && inv in w.temps && D.Enabled(w.temps[inv], step) && !step.Begin?
      && MayReply(w, inv + 1, w.temps[inv], step)
    case TargetMoves(step) => A.Enabled(w.target, step) && TargetMayMove(w, step)
  }

  function DoConnect(w: World, inv: nat): World
    requires CliIn(w, inv, Starting) && A.Enabled(w.daemon, A.LocalConnect(inv))
  {
    var what := w.clis[inv].what;
    if what.localSize > MAX_FRAME then
      w.(clis := Advance(w, inv, Done(Err(D.UnknownIfExec(what.request.Exec?, FrameTooLarge)))))
    else
      w.(clis := w.clis[inv := w.clis[inv].(phase := Asking, asked := true)],
         daemon := A.Apply(w.daemon, A.LocalConnect(inv)))
  }

  function DoBindEndpoint(w: World, inv: nat, peers: set<D.PeerId>): World
    requires inv in w.clis && w.clis[inv].what.peer.Some?
  {
    var what := w.clis[inv].what;
    w.(clis := Advance(w, inv, OnOwnEndpoint),
       temps := w.temps[inv :=
         D.Apply(D.Init(peers), D.Begin(CallOf(inv), what.peer.value, what.request.Exec?, what.size))])
  }

  function Act(w: World, move: Move): World
    requires Possible(w, move)
  {
    match move
    case Invoke(inv, what) => w.(clis := w.clis[inv := Cli(what, false, 0, Starting)])
    case RunInProcess(inv, ok) =>
      w.(clis := w.clis[inv := w.clis[inv].(ranHere := w.clis[inv].ranHere + 1,
                                            phase := Done(if ok then Ok(Served(true)) else Err(Error.Core(Other))))])
    case Connect(inv) => DoConnect(w, inv)
    case NoDaemon(inv) => w.(clis := Advance(w, inv, FellBack))
    case ConnectFails(inv, error) => w.(clis := Advance(w, inv, Done(Err(error))))
    case Answered(inv, ok) => w.(clis := Advance(w, inv, Done(Ok(AnswerOf(w, inv, ok)))))
    case AskFails(inv, error) =>
      w.(clis := Advance(w, inv, Done(Err(D.UnknownIfExec(w.clis[inv].what.request.Exec?, error)))))
    case NoFallback(inv, error) => w.(clis := Advance(w, inv, Done(Err(error))))
    case BindEndpoint(inv, peers) => DoBindEndpoint(w, inv, peers)
    case OwnReturns(inv) =>
      w.(clis := Advance(w, inv, Done(w.temps[inv].calls[CallOf(inv)].phase.result)))
    case Kill(inv) => w.(clis := Advance(w, inv, Killed))
    case ReadLocal(inv) => DoReadLocal(w, inv)
    case FinishLocal(inv) => w.(daemon := A.Apply(w.daemon, A.LocalFinish(inv)))
    case DaemonMoves(step) => w.(daemon := A.Apply(w.daemon, step))
    case DialerMoves(step) => w.(dialer := D.Apply(w.dialer, step))
    case TempMoves(inv, step) => w.(temps := w.temps[inv := D.Apply(w.temps[inv], step)])
    case TargetMoves(step) => w.(target := A.Apply(w.target, step))
  }

  function Follow(w: World, move: Move): World {
    if Possible(w, move) then Act(w, move) else w
  }

  function Play(w: World, moves: seq<Move>): World {
    if moves == [] then w else Follow(Play(w, moves[..|moves| - 1]), moves[|moves| - 1])
  }

  // ---------------------------------------------------------------- invariant

  /** A dialer's call for `inv` is the invocation's own request. */
  ghost predicate CallMatches(s: D.State, inv: nat, what: Invocation) {
    CallOf(inv) in s.calls ==>
      && s.calls[CallOf(inv)].exec == what.request.Exec?
      && s.calls[CallOf(inv)].size == what.size
      && what.peer == Some(s.calls[CallOf(inv)].peer)
  }

  /** If there is an own endpoint, its call is over with this result. */
  ghost predicate OwnEnded(w: World, inv: nat, result: Result<Response, Error>) {
    inv in w.temps ==>
      CallReturned(w.temps[inv], inv) && w.temps[inv].calls[CallOf(inv)].phase.result == result
  }

  /** What the CLI's progress says about the way its request took. */
  ghost predicate ProgressOk(w: World, inv: nat, cli: Cli) {
    && (cli.asked ==> !cli.what.Route().InProcess? && cli.what.localSize <= MAX_FRAME)
    && (cli.ranHere > 0 ==> cli.ranHere == 1 && cli.phase.Done? && !cli.what.Remote())
    && match cli.phase
       case Starting => !cli.asked && inv !in w.temps
       case Asking => cli.asked
       case FellBack => !cli.asked && inv !in w.temps && !cli.what.Route().InProcess?
       case OnOwnEndpoint => !cli.asked && inv in w.temps
       case Killed => true
       case Done(Ok(response)) =>
         && (cli.what.Remote() ==>
               && OwnEnded(w, inv, Ok(response))
               && (inv !in w.temps ==>
                     cli.asked && inv in w.clis && AnswerReady(w, inv) && response == AnswerOf(w, inv, true)))
         && (!cli.what.Remote() ==>
               if cli.asked then
                 AnswerReady(w, inv) && if w.daemon.locals[inv].end.busy then response == Busy else response.Served?
               else cli.ranHere == 1 && response == Served(true))
       case Done(Err(error)) =>
         && (error.OutcomeUnknown? ==> cli.what.request.Exec? && cli.what.Remote())
         && (cli.what.Route().InProcess? ==> cli.ranHere == 1)
         && (cli.what.request.Exec? && cli.what.Remote() ==>
           && OwnEnded(w, inv, Err(error))
           && (inv !in w.temps ==>
                 (cli.asked <==> error.OutcomeUnknown? && cli.what.localSize <= MAX_FRAME)))
  }

  /** The daemon's call for a local request that has a reply is over. */
  ghost predicate AnswerFollowsCall(w: World, inv: nat) {
    CallOf(inv) in w.dialer.calls && inv in w.daemon.locals && !w.daemon.locals[inv].Running?
    && !(w.daemon.locals[inv].Ended? && w.daemon.locals[inv].end.Aborted?) ==>
      CallReturned(w.dialer, inv)
  }

  /** Each invocation takes one way: through the daemon, on its own endpoint, or in process. */
  ghost predicate CliOk(w: World, inv: nat) {
    && (inv in w.daemon.locals ==> inv in w.clis && w.clis[inv].asked)
    && (inv in w.temps ==> inv in w.clis && !w.clis[inv].asked && w.clis[inv].what.Remote())
    && (CallOf(inv) in w.dialer.calls ==>
          && inv in w.daemon.locals && w.daemon.locals[inv].Ran()
          && inv in w.clis && w.clis[inv].what.Remote())
    && (inv in w.clis && w.clis[inv].what.Remote() && w.clis[inv].what.peer.Some?
        && inv in w.daemon.locals && w.daemon.locals[inv].Ran() ==>
          CallOf(inv) in w.dialer.calls)
    && AnswerFollowsCall(w, inv)
    && (inv in w.clis ==>
          && CallMatches(w.dialer, inv, w.clis[inv].what)
          && (inv in w.temps ==> CallMatches(w.temps[inv], inv, w.clis[inv].what))
          && ProgressOk(w, inv, w.clis[inv]))
  }

  /** A temporary endpoint serves its own invocation only. */
  ghost predicate TempOk(w: World, inv: nat) {
    inv in w.temps ==> D.Inv(w.temps[inv]) && forall c :: c in w.temps[inv].calls ==> c == CallOf(inv)
  }

  /** The target received nothing that was not sent to it. */
  ghost predicate WireOk(w: World, id: A.StreamId) {
    id in w.target.streams ==> OnWire(w, id)
  }

  /** A call to the target that returned a response has one that the target made. */
  ghost predicate CallReplyOk(target: A.State, targetId: D.PeerId, origin: nat, s: D.State, c: D.CallId) {
    c in s.calls && s.calls[c].phase.Returned? && s.calls[c].phase.result.Ok? ==>
      && !s.calls[c].phase.result.value.NotForwarded?
      && (s.calls[c].peer == targetId ==>
            RepliedTo(target, origin, s, c, s.calls[c].phase.result.value.Busy?))
  }

  ghost predicate ReplyOk(w: World, inv: nat) {
    && CallReplyOk(w.target, w.targetId, 0, w.dialer, CallOf(inv))
    && (inv in w.temps ==> CallReplyOk(w.target, w.targetId, inv + 1, w.temps[inv], CallOf(inv)))
  }

  ghost predicate WorldOk(w: World) {
    && A.Inv(w.daemon)
    && A.Inv(w.target)
    && D.Inv(w.dialer)
    && (forall inv {:trigger TempOk(w, inv)} :: TempOk(w, inv))
    && (forall inv {:trigger CliOk(w, inv)} :: CliOk(w, inv))
    && (forall id {:trigger WireOk(w, id)} :: WireOk(w, id))
    && (forall inv {:trigger ReplyOk(w, inv)} :: ReplyOk(w, inv))
  }

  // ---------------------------------------------------------------- what the parts never undo

  /** Calls keep their request, returned calls their result; streams and connections are only added. */
  ghost predicate DialerGrew(s: D.State, t: D.State) {
    && (forall c :: c in s.calls ==>
          && c in t.calls
          && t.calls[c].exec == s.calls[c].exec && t.calls[c].size == s.calls[c].size
          && t.calls[c].peer == s.calls[c].peer
          && (s.calls[c].phase.Returned? ==> t.calls[c].phase == s.calls[c].phase))
    && s.streams <= t.streams
    && ConnsGrew(s.conns, t.conns)
  }

  ghost predicate ConnsGrew(s: seq<D.Conn>, t: seq<D.Conn>) {
    |s| <= |t| && forall i :: 0 <= i < |s| ==> t[i].peer == s[i].peer
  }

  lemma ActorKeepsRequest(s: D.State, step: D.Step)
    requires D.Enabled(s, step) && D.Actor(step).Some? && !step.Begin?
    ensures step.c in s.calls && !s.calls[step.c].phase.Returned?
    ensures step.c in D.Apply(s, step).calls
    ensures D.Apply(s, step).calls[step.c].exec == s.calls[step.c].exec
    ensures D.Apply(s, step).calls[step.c].size == s.calls[step.c].size
    ensures D.Apply(s, step).calls[step.c].peer == s.calls[step.c].peer
  {}

  lemma StepKeepsConns(s: D.State, step: D.Step)
    requires D.Enabled(s, step)
    ensures ConnsGrew(s.conns, D.Apply(s, step).conns)
  {}

  lemma DialerStepGrows(s: D.State, step: D.Step)
    requires D.Inv(s) && D.Enabled(s, step)
    ensures DialerGrew(s, D.Apply(s, step))
    ensures forall c :: c in D.Apply(s, step).calls ==> c in s.calls || (step.Begin? && c == step.c)
  {
    D.InvActor(s, step);
    var t := D.Apply(s, step);
    forall c | D.Actor(step) != Some(c) ensures D.Calm(s, t, c) {
      D.StepCalm(s, step, c);
    }
    if D.Actor(step).Some? && !step.Begin? {
      ActorKeepsRequest(s, step);
    }
    if !step.Wrote? && D.Actor(step).Some? {
      D.SilentStep(s, step);
    }
    StepKeepsConns(s, step);
  }

  lemma LocalsKept(s: A.State, step: A.Step)
    requires A.Enabled(s, step) && !step.LocalConnect?
    ensures A.Apply(s, step).locals.Keys == s.locals.Keys
    ensures forall l :: l in s.locals && s.locals[l].Ran() ==> A.Apply(s, step).locals[l].Ran()
    ensures forall l :: l in s.locals && s.locals[l].Ended? ==> A.Apply(s, step).locals[l] == s.locals[l]
    ensures forall l :: l in s.locals && A.Apply(s, step).locals[l].Ran() && step != A.LocalRead(l) ==> s.locals[l].Ran()
  {}

  /** Only its dispatch's end takes a running local request to a reply. */
  lemma RunningUntilFinished(s: A.State, step: A.Step, l: nat)
    requires A.Enabled(s, step) && l in s.locals && s.locals[l].Running? && step != A.LocalFinish(l)
    requires !step.LocalConnect?
    ensures A.Apply(s, step).locals[l] in {A.Running, A.Ended(A.Aborted(true))}
  {}

  lemma StreamsKept(s: A.State, step: A.Step)
    requires A.Enabled(s, step)
    ensures forall id :: id in A.Apply(s, step).streams ==> id in s.streams || (step.Accept? && id == step.id)
  {}

  // ---------------------------------------------------------------- every move keeps it

  lemma StartOk(max: nat, peers: set<D.PeerId>, targetId: D.PeerId, targetMax: nat)
    ensures WorldOk(Start(max, peers, targetId, targetMax))
  {
    A.InitInv(max);
    A.InitInv(targetMax);
    D.InitInv(peers);
  }

  predicate CliMove(move: Move) {
    || move.Invoke? || move.RunInProcess? || move.NoDaemon? || move.ConnectFails? || move.Answered?
    || move.AskFails? || move.NoFallback? || move.OwnReturns? || move.Kill?
  }

  /** Moves of the CLI process itself: only its own entry changes. */
  lemma CliMoveOwn(w: World, move: Move)
    requires Possible(w, move) && CliMove(move) && CliOk(w, move.inv) && TempOk(w, move.inv)
    ensures CliOk(Act(w, move), move.inv)
  {
    if move.OwnReturns? {
      assert D.RecordOk(w.temps[move.inv], CallOf(move.inv));
    }
  }

  lemma CliMoveOther(w: World, move: Move, inv: nat)
    requires Possible(w, move) && CliMove(move) && CliOk(w, inv) && inv != move.inv
    ensures CliOk(Act(w, move), inv)
  {}

  lemma CliMoveKeepsParts(w: World, move: Move)
    requires Possible(w, move) && CliMove(move)
    ensures var t := Act(w, move);
            t == w.(clis := t.clis)
  {}

  lemma ConnectOwn(w: World, inv: nat)
    requires Possible(w, Connect(inv)) && CliOk(w, inv)
    ensures CliOk(DoConnect(w, inv), inv)
  {}

  lemma ConnectOther(w: World, inv: nat, other: nat)
    requires Possible(w, Connect(inv)) && CliOk(w, other) && other != inv
    ensures CliOk(DoConnect(w, inv), other)
  {}

  lemma BindOk(w: World, inv: nat, peers: set<D.PeerId>, other: nat)
    requires Possible(w, BindEndpoint(inv, peers)) && CliOk(w, inv) && CliOk(w, other)
    ensures CliOk(DoBindEndpoint(w, inv, peers), other)
    ensures TempOk(w, other) ==> TempOk(DoBindEndpoint(w, inv, peers), other)
  {
    var what := w.clis[inv].what;
    D.InitInv(peers);
    D.StepInv(D.Init(peers), D.Begin(CallOf(inv), what.peer.value, what.request.Exec?, what.size));
  }

  /** A known alias of a request that was let in is called; nothing else is. */
  lemma ReadLocalOwn(w: World, inv: nat)
    requires Possible(w, ReadLocal(inv)) && CliOk(w, inv)
    ensures CliOk(DoReadLocal(w, inv), inv)
  {}

  lemma ReadLocalOther(w: World, inv: nat, other: nat)
    requires Possible(w, ReadLocal(inv)) && CliOk(w, other) && other != inv
    ensures CliOk(DoReadLocal(w, inv), other)
  {}

  lemma ReadLocalFrame(w: World, inv: nat)
    requires Possible(w, ReadLocal(inv))
    ensures var t := DoReadLocal(w, inv);
            && t == w.(daemon := t.daemon, dialer := t.dialer)
            && t.dialer.streams == w.dialer.streams && t.dialer.conns == w.dialer.conns
  {}

  lemma ReadLocalDaemon(w: World, inv: nat)
    requires Possible(w, ReadLocal(inv)) && A.Inv(w.daemon)
    ensures A.Inv(DoReadLocal(w, inv).daemon)
  {
    A.StepInv(w.daemon, A.LocalRead(inv));
  }

  lemma ReadLocalDialer(w: World, inv: nat)
    requires Possible(w, ReadLocal(inv)) && D.Inv(w.dialer)
    ensures D.Inv(DoReadLocal(w, inv).dialer)
  {
    var what := w.clis[inv].what;
    if what.peer.Some? {
      D.StepInv(w.dialer, D.Begin(CallOf(inv), what.peer.value, what.request.Exec?, what.size));
    }
  }

  lemma DaemonMoveOk(w: World, step: A.Step, other: nat)
    requires A.Enabled(w.daemon, step) && !step.LocalConnect? && !step.LocalRead? && CliOk(w, other)
    requires step == A.LocalFinish(other) && CallOf(other) in w.dialer.calls ==> CallReturned(w.dialer, other)
    ensures CliOk(w.(daemon := A.Apply(w.daemon, step)), other)
  {
    LocalsKept(w.daemon, step);
    if other in w.daemon.locals && w.daemon.locals[other].Running? && step != A.LocalFinish(other) {
      RunningUntilFinished(w.daemon, step, other);
    }
  }

  lemma DialerMoveOk(w: World, step: D.Step, other: nat)
    requires D.Inv(w.dialer) && D.Enabled(w.dialer, step) && (step.Begin? ==> step.c.Background?)
    requires CliOk(w, other)
    ensures CliOk(w.(dialer := D.Apply(w.dialer, step)), other)
  {
    DialerStepGrows(w.dialer, step);
  }

  lemma TempMoveOk(w: World, inv: nat, step: D.Step, other: nat)
    requires Possible(w, TempMoves(inv, step)) && TempOk(w, inv) && CliOk(w, other)
    ensures CliOk(Act(w, TempMoves(inv, step)), other)
    ensures TempOk(w, other) ==> TempOk(Act(w, TempMoves(inv, step)), other)
  {
    DialerStepGrows(w.temps[inv], step);
    D.StepInv(w.temps[inv], step);
  }

  /** Senders only add to what they sent. */
  ghost predicate SentMore(w: World, t: World) {
    && t.targetId == w.targetId
    && w.dialer.streams <= t.dialer.streams && ConnsGrew(w.dialer.conns, t.dialer.conns)
    && forall inv :: inv in w.temps ==>
         inv in t.temps && w.temps[inv].streams <= t.temps[inv].streams
         && ConnsGrew(w.temps[inv].conns, t.temps[inv].conns)
  }

  lemma WireKept(w: World, t: World, id: A.StreamId)
    requires WireOk(w, id) && SentMore(w, t) && t.target == w.target
    ensures WireOk(t, id)
  {}

  // ---------------------------------------------------------------- replies stay true

  lemma OnlyRepliesSucceed(s: D.State, step: D.Step)
    requires D.Enabled(s, step) && D.Actor(step).Some? && !step.Replied?
    ensures step.c in D.Apply(s, step).calls
    ensures D.Apply(s, step).calls[step.c].phase.Returned? ==> D.Apply(s, step).calls[step.c].phase.result.Err?
  {}

  lemma RepliedToLater(target: A.State, origin: nat, s: D.State, t: D.State, c: D.CallId, busy: bool)
    requires RepliedTo(target, origin, s, c, busy) && s.streams <= t.streams
    ensures RepliedTo(target, origin, t, c, busy)
  {
    var i :| 0 <= i < |s.streams| && s.streams[i].call == c && HasReply(target, A.StreamId(origin, i), busy);
    assert t.streams[i].call == c && HasReply(target, A.StreamId(origin, i), busy);
  }

  /** A dialer's step keeps old replies and adds only true ones. */
  lemma DialerReplies(w: World, origin: nat, s: D.State, step: D.Step, c: D.CallId)
    requires D.Inv(s) && D.Enabled(s, step) && MayReply(w, origin, s, step)
    requires CallReplyOk(w.target, w.targetId, origin, s, c)
    ensures CallReplyOk(w.target, w.targetId, origin, D.Apply(s, step), c)
  {
    var t := D.Apply(s, step);
    DialerStepGrows(s, step);
    if c in t.calls && t.calls[c].phase.Returned? && t.calls[c].phase.result.Ok? {
      var busy := t.calls[c].phase.result.value.Busy?;
      if D.Actor(step) == Some(c) {
        if !step.Replied? {
          OnlyRepliesSucceed(s, step);
        }
      } else {
        D.InvActor(s, step);
        D.StepCalm(s, step, c);
      }
      if t.calls[c].peer == w.targetId {
        RepliedToLater(w.target, origin, s, t, c, busy);
      }
    }
  }

  lemma TargetKeepsReplies(s: A.State, step: A.Step, id: A.StreamId, busy: bool)
    requires A.Enabled(s, step) && HasReply(s, id, busy)
    ensures HasReply(A.Apply(s, step), id, busy)
  {}

  lemma TargetReplies(target: A.State, step: A.Step, targetId: D.PeerId, origin: nat, s: D.State, c: D.CallId)
    requires A.Enabled(target, step) && CallReplyOk(target, targetId, origin, s, c)
    ensures CallReplyOk(A.Apply(target, step), targetId, origin, s, c)
  {
    if c in s.calls && s.calls[c].phase.Returned? && s.calls[c].phase.result.Ok? && s.calls[c].peer == targetId {
      var busy := s.calls[c].phase.result.value.Busy?;
      var i :| 0 <= i < |s.streams| && s.streams[i].call == c && HasReply(target, A.StreamId(origin, i), busy);
      TargetKeepsReplies(target, step, A.StreamId(origin, i), busy);
      assert s.streams[i].call == c && HasReply(A.Apply(target, step), A.StreamId(origin, i), busy);
    }
  }

  lemma BeginReplies(target: A.State, targetId: D.PeerId, origin: nat, s: D.State, step: D.Step, c: D.CallId)
    requires D.Inv(s) && D.Enabled(s, step) && step.Begin?
    requires CallReplyOk(target, targetId, origin, s, c)
    ensures CallReplyOk(target, targetId, origin, D.Apply(s, step), c)
  {
    OnlyRepliesSucceed(s, step);
    D.InvActor(s, step);
    if D.Actor(step) != Some(c) {
      D.StepCalm(s, step, c);
    }
    if c in s.calls && s.calls[c].phase.Returned? && s.calls[c].phase.result.Ok? && s.calls[c].peer == targetId {
      DialerStepGrows(s, step);
      RepliedToLater(target, origin, s, D.Apply(s, step), c, s.calls[c].phase.result.value.Busy?);
    }
  }

  lemma BindReplies(w: World, own: nat, peers: set<D.PeerId>, inv: nat)
    requires Possible(w, BindEndpoint(own, peers)) && ReplyOk(w, inv)
    ensures ReplyOk(DoBindEndpoint(w, own, peers), inv)
  {
    var what := w.clis[own].what;
    D.InitInv(peers);
    BeginReplies(w.target, w.targetId, own + 1, D.Init(peers),
                 D.Begin(CallOf(own), what.peer.value, what.request.Exec?, what.size), CallOf(own));
  }

  lemma ReadLocalReplies(w: World, own: nat, inv: nat)
    requires Possible(w, ReadLocal(own)) && D.Inv(w.dialer) && ReplyOk(w, inv)
    ensures ReplyOk(DoReadLocal(w, own), inv)
  {
    ReadLocalFrame(w, own);
    var what := w.clis[own].what;
    if what.peer.Some? {
      var begin := D.Begin(CallOf(own), what.peer.value, what.request.Exec?, what.size);
      BeginReplies(w.target, w.targetId, 0, w.dialer, begin, CallOf(inv));
    }
  }

  lemma TempReplies(w: World, own: nat, step: D.Step, inv: nat)
    requires Possible(w, TempMoves(own, step)) && TempOk(w, own) && ReplyOk(w, inv)
    ensures ReplyOk(Act(w, TempMoves(own, step)), inv)
  {
    if own == inv {
      DialerReplies(w, inv + 1, w.temps[inv], step, CallOf(inv));
    }
  }

  lemma TargetMoveReplies(w: World, step: A.Step, inv: nat)
    requires Possible(w, TargetMoves(step)) && ReplyOk(w, inv)
    ensures ReplyOk(w.(target := A.Apply(w.target, step)), inv)
  {
    TargetReplies(w.target, step, w.targetId, 0, w.dialer, CallOf(inv));
    if inv in w.temps {
      TargetReplies(w.target, step, w.targetId, inv + 1, w.temps[inv], CallOf(inv));
    }
  }

  lemma TargetMoveOk(w: World, step: A.Step, id: A.StreamId)
    requires A.Enabled(w.target, step) && TargetMayMove(w, step) && WireOk(w, id)
    ensures WireOk(w.(target := A.Apply(w.target, step)), id)
  {
    StreamsKept(w.target, step);
  }

  lemma PartsOk(w: World, move: Move)
    requires WorldOk(w) && Possible(w, move)
    ensures A.Inv(Act(w, move).daemon) && A.Inv(Act(w, move).target) && D.Inv(Act(w, move).dialer)
  {
    match move
    case Connect(inv) => A.StepInv(w.daemon, A.LocalConnect(inv));
    case ReadLocal(inv) =>
      ReadLocalFrame(w, inv);
      ReadLocalDaemon(w, inv);
      ReadLocalDialer(w, inv);
    case FinishLocal(inv) => A.StepInv(w.daemon, A.LocalFinish(inv));
    case DaemonMoves(step) => A.StepInv(w.daemon, step);
    case DialerMoves(step) => D.StepInv(w.dialer, step);
    case TargetMoves(step) => A.StepInv(w.target, step);
    case BindEndpoint(_, _) =>
    case TempMoves(_, _) =>
    case Invoke(_, _) =>
    case RunInProcess(_, _) =>
    case NoDaemon(_) =>
    case ConnectFails(_, _) =>
    case Answered(_, _) =>
    case AskFails(_, _) =>
    case NoFallback(_, _) =>
    case OwnReturns(_) =>
    case Kill(_) =>
  }

  /** What the invariant says about the CLI that a move is about. */
  ghost predicate MoverOk(w: World, move: Move) {
    && D.Inv(w.dialer)
    && (move.DaemonMoves? || move.DialerMoves? || move.TargetMoves? || (CliOk(w, move.inv) && TempOk(w, move.inv)))
  }

  lemma WorldMover(w: World, move: Move)
    requires WorldOk(w)
    ensures MoverOk(w, move)
  {}

  lemma DaemonSideOk(w: World, move: Move, inv: nat)
    requires MoverOk(w, move) && CliOk(w, inv) && Possible(w, move)
    requires move.ReadLocal? || move.FinishLocal? || move.DaemonMoves?
    ensures CliOk(Act(w, move), inv)
  {
    if move.DaemonMoves? {
      DaemonMoveOk(w, move.admission, inv);
    } else if move.FinishLocal? {
      DaemonMoveOk(w, A.LocalFinish(move.inv), inv);
    } else if move.inv == inv {
      ReadLocalOwn(w, inv);
    } else {
      ReadLocalOther(w, move.inv, inv);
    }
  }

  lemma WireSideOk(w: World, move: Move, inv: nat)
    requires MoverOk(w, move) && CliOk(w, inv) && Possible(w, move)
    requires move.DialerMoves? || move.TempMoves? || move.TargetMoves?
    ensures CliOk(Act(w, move), inv)
  {
    if move.DialerMoves? {
      DialerMoveOk(w, move.dial, inv);
    } else if move.TempMoves? {
      TempMoveOk(w, move.inv, move.dial, inv);
    }
  }

  lemma ClisOk(w: World, move: Move, inv: nat)
    requires MoverOk(w, move) && CliOk(w, inv) && Possible(w, move)
    ensures CliOk(Act(w, move), inv)
  {
    if CliMove(move) {
      if inv == move.inv {
        CliMoveOwn(w, move);
      } else {
        CliMoveOther(w, move, inv);
      }
    } else if move.Connect? {
      if inv == move.inv {
        ConnectOwn(w, inv);
      } else {
        ConnectOther(w, move.inv, inv);
      }
    } else if move.BindEndpoint? {
      BindOk(w, move.inv, move.peers, inv);
    } else if move.DialerMoves? || move.TempMoves? || move.TargetMoves? {
      WireSideOk(w, move, inv);
    } else {
      DaemonSideOk(w, move, inv);
    }
  }

  lemma TempsOk(w: World, move: Move, inv: nat)
    requires MoverOk(w, move) && CliOk(w, inv) && TempOk(w, inv) && Possible(w, move)
    ensures TempOk(Act(w, move), inv)
  {
    if move.BindEndpoint? {
      BindOk(w, move.inv, move.peers, inv);
    } else if move.TempMoves? {
      TempMoveOk(w, move.inv, move.dial, inv);
    } else if CliMove(move) {
      CliMoveKeepsParts(w, move);
    } else if move.ReadLocal? {
      ReadLocalFrame(w, move.inv);
    }
  }

  lemma MovesSendMore(w: World, move: Move)
    requires MoverOk(w, move) && Possible(w, move)
    ensures SentMore(w, Act(w, move))
    ensures !move.TargetMoves? ==> Act(w, move).target == w.target
  {
    if CliMove(move) {
      CliMoveKeepsParts(w, move);
    } else if move.ReadLocal? {
      ReadLocalFrame(w, move.inv);
    } else if move.DialerMoves? {
      DialerStepGrows(w.dialer, move.dial);
    } else if move.TempMoves? {
      DialerStepGrows(w.temps[move.inv], move.dial);
    }
  }

  lemma WiresOk(w: World, move: Move, id: A.StreamId)
    requires MoverOk(w, move) && WireOk(w, id) && Possible(w, move)
    ensures WireOk(Act(w, move), id)
  {
    if move.TargetMoves? {
      TargetMoveOk(w, move.admission, id);
    } else {
      MovesSendMore(w, move);
      WireKept(w, Act(w, move), id);
    }
  }

  lemma RepliesOk(w: World, move: Move, inv: nat)
    requires MoverOk(w, move) && ReplyOk(w, inv) && Possible(w, move)
    ensures ReplyOk(Act(w, move), inv)
  {
    if CliMove(move) {
      CliMoveKeepsParts(w, move);
    } else {
      match move
      case BindEndpoint(own, peers) => BindReplies(w, own, peers, inv);
      case ReadLocal(own) => ReadLocalReplies(w, own, inv);
      case DialerMoves(step) => DialerReplies(w, 0, w.dialer, step, CallOf(inv));
      case TempMoves(own, step) => TempReplies(w, own, step, inv);
      case TargetMoves(step) => TargetMoveReplies(w, step, inv);
      case _ =>
    }
  }

  lemma FollowOk(w: World, move: Move)
    requires WorldOk(w)
    ensures WorldOk(Follow(w, move))
  {
    if Possible(w, move) {
      var t := Act(w, move);
      WorldMover(w, move);
      PartsOk(w, move);
      forall inv ensures TempOk(t, inv) {
        assert CliOk(w, inv) && TempOk(w, inv);
        TempsOk(w, move, inv);
      }
      forall inv ensures CliOk(t, inv) {
        assert CliOk(w, inv);
        ClisOk(w, move, inv);
      }
      forall inv ensures ReplyOk(t, inv) {
        assert ReplyOk(w, inv);
        RepliesOk(w, move, inv);
      }
      forall id ensures WireOk(t, id) {
        assert WireOk(w, id);
        WiresOk(w, move, id);
      }
    }
  }
}
