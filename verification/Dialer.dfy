/**
 RPC over cached connections as a step system: any number of callers, peers and
 connections. The environment closes connections, fails phases, drops callers and
 lets time pass. Timers fire on time: time does not pass the end of a pending phase.
 */
module Dialer {
  import opened Prelude
  import opened Protocol

  const DIAL_SECS: nat := 30
  const IO_SECS: nat := 15
  const MARGIN_SECS: nat := 5
  const RPC_SECS: nat := MAX_EXEC_SECONDS + MARGIN_SECS
  const CALL_TIMEOUT: nat := DIAL_SECS + IO_SECS + RPC_SECS
  const LOCAL_TIMEOUT: nat := CALL_TIMEOUT + MARGIN_SECS

  type PeerId = nat

  datatype CallId = ForInvocation(invocation: nat) | Background(n: nat)

  datatype Conn = Conn(peer: PeerId, open: bool)

  /** A peer's lock and, under it, the cached connection. */
  datatype Peer = Peer(holder: Option<CallId>, cached: Option<nat>)

  /** `until` is when the phase's timer fires. */
  datatype Phase =
    | Queued(entered: nat, until: nat)                              // for the peer's lock
    | Dialing(entered: nat, until: nat)                             // holding it
    | Opening(conn: nat, reused: bool, entered: nat, until: nat)    // a stream
    | Rpc(conn: nat, reused: bool, sent: bool, entered: nat, until: nat) // request submitted
    | Returned(result: Result<Response, Error>, at: nat)
    | Dropped
  {
    predicate Active() {
      Queued? || Dialing? || Opening? || Rpc?
    }

    predicate Exchanging() {
      Opening? || Rpc?
    }
  }

  /**
   `size` is the length of the encoded request. `tried` lists the connections that
   exchanges ran on. `submissions` counts the attempts to write the request, `written`
   those whose first byte went out.
   */
  datatype Call = Call(
    peer: PeerId,
    exec: bool,
    size: nat,
    started: nat,
    deadline: nat,
    retry: bool,
    tried: seq<nat>,
    submissions: nat,
    written: nat,
    phase: Phase)

  /** A request frame whose first byte went out on a connection. */
  datatype Stream = Stream(call: CallId, conn: nat)

  datatype State = State(
    now: nat,
    peers: map<PeerId, Peer>,
    conns: seq<Conn>,
    calls: map<CallId, Call>,
    streams: seq<Stream>)

  datatype Step =
    | Begin(c: CallId, peer: PeerId, exec: bool, size: nat)
    | Lock(c: CallId)
    | Dialed(c: CallId)
    | DialFailed(c: CallId, error: Error)
    | Opened(c: CallId)
    | Wrote(c: CallId)
    | ExchangeFailed(c: CallId, error: Error)
    | Replied(c: CallId, response: Response)
    | Expire(c: CallId)
    | Drop(c: CallId)
    | Close(conn: nat)
    | Tick(time: nat)

  function Init(peers: set<PeerId>): State {
    State(0, map p | p in peers :: Peer(None, None), [], map[], [])
  }

  // ---------------------------------------------------------------- decisions

  /** A phase keeps its own limit but cannot outlast the call. */
  function PhaseEnd(now: nat, limit: nat, deadline: nat): nat {
    Min(now + limit, deadline)
  }

  /** An exec that failed after submission may still have run. */
  function UnknownIfExec(exec: bool, error: Error): Error {
    if exec then OutcomeUnknown(error) else error
  }

  function Verdict(exec: bool, submitted: bool, error: Error): Error {
    if submitted then UnknownIfExec(exec, error) else error
  }

  predicate OpenConn(s: State, conn: nat) {
    conn < |s.conns| && s.conns[conn].open
  }

  predicate MayRetry(s: State, call: Call, conn: nat, reused: bool, submitted: bool, error: Error) {
    && !call.retry
    && reused
    && (!submitted || !call.exec)
    && error.FailureKind() == ConnectionLost
    && !OpenConn(s, conn)
  }

  function Return(s: State, call: Call, result: Result<Response, Error>): Call {
    call.(phase := Returned(result, s.now))
  }

  /** Queueing for the peer and dialing share one phase, which an expired call never starts. */
  function StartConnection(s: State, call: Call): Call {
    if call.deadline <= s.now then Return(s, call, Err(Timeout))
    else if call.peer !in s.peers then Return(s, call, Err(Invalid("not a configured peer")))
    else call.(phase := Queued(s.now, PhaseEnd(s.now, DIAL_SECS, call.deadline)))
  }

  function EndExchange(s: State, call: Call, conn: nat, reused: bool, submitted: bool, error: Error): Call {
    if MayRetry(s, call, conn, reused, submitted, error) then StartConnection(s, call.(retry := true))
    else Return(s, call, Err(Verdict(call.exec, submitted, error)))
  }

  function StartExchange(s: State, call: Call, conn: nat, reused: bool): Call {
    var call := call.(tried := call.tried + [conn]);
    if call.deadline <= s.now then EndExchange(s, call, conn, reused, false, Timeout)
    else call.(phase := Opening(conn, reused, s.now, PhaseEnd(s.now, IO_SECS, call.deadline)))
  }

  /**
   The first poll submits the request. One too large for a frame is refused before
   its first byte; otherwise the stream takes the first byte later, or never.
   */
  function StartRpc(s: State, call: Call, conn: nat, reused: bool): Call {
    if call.deadline <= s.now then EndExchange(s, call, conn, reused, false, Timeout)
    else
      var call := call.(submissions := call.submissions + 1);
      if call.size > MAX_FRAME then EndExchange(s, call, conn, reused, true, FrameTooLarge)
      else call.(phase := Rpc(conn, reused, false, s.now, PhaseEnd(s.now, RPC_SECS, call.deadline)))
  }

  // ---------------------------------------------------------------- steps

  predicate Has(s: State, c: CallId) {
    c in s.calls
  }

  /** Errors that dialing, streams and the codec report. */
  predicate Reported(error: Error) {
    error.Transport? || error.Io? || error.BadMessage? || error.FrameTooLarge?
  }

  predicate CanLock(s: State, c: CallId) {
    && c in s.calls && s.calls[c].phase.Queued?
    && s.calls[c].peer in s.peers && s.peers[s.calls[c].peer].holder.None?
  }

  /** Reuse the cached connection while it is open; otherwise dial, keeping the lock. */
  function DoLock(s: State, c: CallId): State
    requires CanLock(s, c)
  {
    var call := s.calls[c];
    var peer := s.peers[call.peer];
    if peer.cached.Some? && OpenConn(s, peer.cached.value) then
      s.(calls := s.calls[c := StartExchange(s, call, peer.cached.value, true)])
    else
      s.(peers := s.peers[call.peer := peer.(holder := Some(c))],
         calls := s.calls[c := call.(phase := Dialing(call.phase.entered, call.phase.until))])
  }

  predicate IsDialing(s: State, c: CallId) {
    c in s.calls && s.calls[c].phase.Dialing? && s.calls[c].peer in s.peers
  }

  function DoDialed(s: State, c: CallId): State
    requires IsDialing(s, c)
  {
    var call, conn := s.calls[c], |s.conns|;
    var t := s.(conns := s.conns + [Conn(call.peer, true)],
                peers := s.peers[call.peer := Peer(None, Some(conn))]);
    t.(calls := s.calls[c := StartExchange(t, call, conn, false)])
  }

  /** Gives the lock back and leaves the cache as it was. */
  function Unlock(s: State, peer: PeerId): map<PeerId, Peer>
    requires peer in s.peers
  {
    s.peers[peer := s.peers[peer].(holder := None)]
  }

  function DoDialFailed(s: State, c: CallId, error: Error): State
    requires IsDialing(s, c)
  {
    var call := s.calls[c];
    s.(peers := Unlock(s, call.peer), calls := s.calls[c := Return(s, call, Err(error))])
  }

  predicate IsOpening(s: State, c: CallId) {
    c in s.calls && s.calls[c].phase.Opening?
  }

  function DoOpened(s: State, c: CallId): State
    requires IsOpening(s, c)
  {
    var call := s.calls[c];
    s.(calls := s.calls[c := StartRpc(s, call, call.phase.conn, call.phase.reused)])
  }

  predicate CanWrite(s: State, c: CallId) {
    c in s.calls && s.calls[c].phase.Rpc? && !s.calls[c].phase.sent && OpenConn(s, s.calls[c].phase.conn)
  }

  /** An open connection takes the first byte of the request. */
  function DoWrite(s: State, c: CallId): State
    requires CanWrite(s, c)
  {
    var call := s.calls[c];
    s.(calls := s.calls[c := call.(written := call.written + 1, phase := call.phase.(sent := true))],
       streams := s.streams + [Stream(c, call.phase.conn)])
  }

  predicate IsExchanging(s: State, c: CallId) {
    c in s.calls && s.calls[c].phase.Exchanging()
  }

  /** The request counts as submitted once the RPC phase has begun. */
  function FailedCall(s: State, call: Call, error: Error): Call
    requires call.phase.Exchanging()
  {
    EndExchange(s, call, call.phase.conn, call.phase.reused, call.phase.Rpc?, error)
  }

  function DoExchangeFailed(s: State, c: CallId, error: Error): State
    requires IsExchanging(s, c)
  {
    var call := s.calls[c];
    s.(calls := s.calls[c := FailedCall(s, call, error)])
  }

  predicate IsAwaitingReply(s: State, c: CallId) {
    c in s.calls && s.calls[c].phase.Rpc? && s.calls[c].phase.sent
  }

  function DoReplied(s: State, c: CallId, response: Response): State
    requires IsAwaitingReply(s, c)
  {
    s.(calls := s.calls[c := Return(s, s.calls[c], Ok(response))])
  }

  predicate CanExpire(s: State, c: CallId) {
    && c in s.calls && s.calls[c].phase.Active() && s.calls[c].phase.until <= s.now
    && (s.calls[c].phase.Dialing? ==> s.calls[c].peer in s.peers)
  }

  function DoExpire(s: State, c: CallId): State
    requires CanExpire(s, c)
  {
    var call := s.calls[c];
    if call.phase.Queued? then s.(calls := s.calls[c := Return(s, call, Err(Timeout))])
    else if call.phase.Dialing? then DoDialFailed(s, c, Timeout)
    else DoExchangeFailed(s, c, Timeout)
  }

  predicate CanDrop(s: State, c: CallId) {
    && c in s.calls && s.calls[c].phase.Active()
    && (s.calls[c].phase.Dialing? ==> s.calls[c].peer in s.peers)
  }

  function DoDrop(s: State, c: CallId): State
    requires CanDrop(s, c)
  {
    var call := s.calls[c];
    s.(peers := if call.phase.Dialing? then Unlock(s, call.peer) else s.peers,
       calls := s.calls[c := call.(phase := Dropped)])
  }

  predicate CanTick(s: State, time: nat) {
    s.now <= time && forall c :: c in s.calls && s.calls[c].phase.Active() ==> time <= s.calls[c].phase.until
  }

  predicate Enabled(s: State, step: Step) {
    match step
    case Begin(c, _, _, _) => c !in s.calls
    case Lock(c) => CanLock(s, c)
    case Dialed(c) => IsDialing(s, c)
    case DialFailed(c, error) => IsDialing(s, c) && Reported(error)
    case Opened(c) => IsOpening(s, c)
    case Wrote(c) => CanWrite(s, c)
    case ExchangeFailed(c, error) => IsExchanging(s, c) && Reported(error)
    case Replied(c, _) => IsAwaitingReply(s, c)
    case Expire(c) => CanExpire(s, c)
    case Drop(c) => CanDrop(s, c)
    case Close(conn) => conn < |s.conns|
    case Tick(time) => CanTick(s, time)
  }

  function NewCall(s: State, peer: PeerId, exec: bool, size: nat): Call {
    StartConnection(s, Call(peer, exec, size, s.now, s.now + CALL_TIMEOUT, false, [], 0, 0, Dropped))
  }

  function Apply(s: State, step: Step): State
    requires Enabled(s, step)
  {
    match step
    case Begin(c, peer, exec, size) => s.(calls := s.calls[c := NewCall(s, peer, exec, size)])
    case Lock(c) => DoLock(s, c)
    case Dialed(c) => DoDialed(s, c)
    case DialFailed(c, error) => DoDialFailed(s, c, error)
    case Opened(c) => DoOpened(s, c)
    case Wrote(c) => DoWrite(s, c)
    case ExchangeFailed(c, error) => DoExchangeFailed(s, c, error)
    case Replied(c, response) => DoReplied(s, c, response)
    case Expire(c) => DoExpire(s, c)
    case Drop(c) => DoDrop(s, c)
    case Close(conn) => s.(conns := s.conns[conn := s.conns[conn].(open := false)])
    case Tick(time) => s.(now := time)
  }

  function Next(s: State, step: Step): State {
    if Enabled(s, step) then Apply(s, step) else s
  }

  function Run(s: State, steps: seq<Step>): State {
    if steps == [] then s else Next(Run(s, steps[..|steps| - 1]), steps[|steps| - 1])
  }

  // ---------------------------------------------------------------- invariant

  /** The lock is held exactly by a call that is dialing; the cache is about this peer. */
  ghost predicate PeerOk(s: State, p: PeerId) {
    p in s.peers ==>
      && (s.peers[p].holder.Some? ==>
            && s.peers[p].holder.value in s.calls
            && s.calls[s.peers[p].holder.value].phase.Dialing?
            && s.calls[s.peers[p].holder.value].peer == p)
      && (s.peers[p].cached.Some? ==>
            s.peers[p].cached.value < |s.conns| && s.conns[s.peers[p].cached.value].peer == p)
  }

  /** Only the cached connection can be open. */
  ghost predicate ConnOk(s: State, i: nat) {
    i < |s.conns| ==>
      && s.conns[i].peer in s.peers
      && (s.conns[i].open ==> s.peers[s.conns[i].peer].cached == Some(i))
  }

  /** Where the call stands with respect to locks and connections. */
  ghost predicate PlaceOk(s: State, c: CallId) {
    c in s.calls ==>
      var call := s.calls[c];
      match call.phase
      case Queued(_, _) => call.peer in s.peers
      case Dialing(_, _) =>
        && call.peer in s.peers
        && s.peers[call.peer].holder == Some(c)
        && (s.peers[call.peer].cached.Some? ==> !OpenConn(s, s.peers[call.peer].cached.value))
      case Opening(conn, _, _, _) => conn < |s.conns| && s.conns[conn].peer == call.peer
      case Rpc(conn, _, _, _, _) => conn < |s.conns| && s.conns[conn].peer == call.peer
      case _ => true
  }

  /** At most two exchanges, the second on another connection after the first one closed. */
  ghost predicate TriedOk(s: State, call: Call) {
    && (forall k :: 0 <= k < |call.tried| ==>
          call.tried[k] < |s.conns| && s.conns[call.tried[k]].peer == call.peer)
    && (call.retry ==> |call.tried| >= 1 && !OpenConn(s, call.tried[0]))
    && |call.tried| <= (if call.retry then 2 else 1)
    && (|call.tried| == 2 ==> call.tried[0] != call.tried[1])
    && (call.phase.Queued? || call.phase.Dialing? ==> |call.tried| == if call.retry then 1 else 0)
    && (call.phase.Exchanging() ==>
          |call.tried| == (if call.retry then 2 else 1) && call.tried[|call.tried| - 1] == call.phase.conn)
  }

  /** Nothing goes out that was not submitted, and nothing that exceeds a frame. */
  ghost predicate WrittenOk(call: Call) {
    call.written <= call.submissions && (call.size > MAX_FRAME ==> call.written == 0)
  }

  /** How often the request was submitted and written, and what the caller is told about it. */
  ghost predicate SubmittedOk(call: Call) {
    && WrittenOk(call)
    && (call.phase.Rpc? ==>
          && call.size <= MAX_FRAME
          && if call.phase.sent then call.written >= 1 else call.written < call.submissions)
    && (call.phase.Returned? && call.phase.result.Ok? ==> call.written >= 1)
    && (call.phase.Returned? && call.phase.result.Err? && call.phase.result.error.OutcomeUnknown? ==> call.exec)
    && (!call.exec ==> call.submissions + (if call.phase.Opening? then 1 else 0) <= |call.tried|)
    && (call.exec ==>
          match call.phase
          case Rpc(_, _, _, _, _) => call.submissions == 1
          case Returned(Ok(_), _) => call.submissions == 1
          case Returned(Err(error), _) => call.submissions == if error.OutcomeUnknown? then 1 else 0
          case Dropped => call.submissions <= 1
          case _ => call.submissions == 0)
  }

  /** What a phase may take at most. */
  function LimitOf(phase: Phase): nat
    requires phase.Active()
  {
    if phase.Opening? then IO_SECS else if phase.Rpc? then RPC_SECS else DIAL_SECS
  }

  /** Every phase starts before the deadline; its timer fires after its own limit, or at the deadline if that is sooner. */
  ghost predicate TimedOk(now: nat, call: Call) {
    && call.deadline == call.started + CALL_TIMEOUT
    && call.started <= now
    && (call.phase.Active() ==>
          && call.started <= call.phase.entered <= now <= call.phase.until
          && call.phase.entered < call.deadline
          && call.phase.until == if call.phase.entered + LimitOf(call.phase) <= call.deadline
                                 then call.phase.entered + LimitOf(call.phase) else call.deadline)
    && (call.phase.Returned? ==> call.started <= call.phase.at <= call.deadline)
  }

  /** On a first attempt no phase is cut short by the call's deadline. */
  ghost predicate FullPhaseOk(call: Call) {
    !call.retry ==>
      match call.phase
      case Queued(entered, until) => entered == call.started && until == entered + DIAL_SECS
      case Dialing(entered, until) => entered == call.started && until == entered + DIAL_SECS
      case Opening(_, _, entered, until) => entered <= call.started + DIAL_SECS && until == entered + IO_SECS
      case Rpc(_, _, _, entered, until) =>
        entered <= call.started + DIAL_SECS + IO_SECS && until == entered + RPC_SECS
      case _ => true
  }

  ghost predicate CallOk(s: State, call: Call) {
    TriedOk(s, call) && SubmittedOk(call) && TimedOk(s.now, call) && FullPhaseOk(call)
  }

  ghost predicate RecordOk(s: State, c: CallId) {
    c in s.calls ==> CallOk(s, s.calls[c])
  }

  function Writes(streams: seq<Stream>, c: CallId): nat {
    if streams == [] then 0
    else Writes(streams[..|streams| - 1], c) + if streams[|streams| - 1].call == c then 1 else 0
  }

  /** A call's account of what it wrote is what is on the streams. */
  ghost predicate WritesOk(s: State, c: CallId) {
    Writes(s.streams, c) == if c in s.calls then s.calls[c].written else 0
  }

  /** A stream belongs to a call and runs on a connection to that call's peer. */
  ghost predicate StreamOk(s: State, i: nat) {
    i < |s.streams| ==>
      && s.streams[i].call in s.calls
      && s.streams[i].conn < |s.conns|
      && s.conns[s.streams[i].conn].peer == s.calls[s.streams[i].call].peer
  }

  ghost predicate Inv(s: State) {
    && (forall p: PeerId {:trigger PeerOk(s, p)} :: PeerOk(s, p))
    && (forall i: nat {:trigger ConnOk(s, i)} :: ConnOk(s, i))
    && (forall c {:trigger PlaceOk(s, c)} :: PlaceOk(s, c))
    && (forall c {:trigger RecordOk(s, c)} :: RecordOk(s, c))
    && (forall c {:trigger WritesOk(s, c)} :: WritesOk(s, c))
    && (forall i: nat {:trigger StreamOk(s, i)} :: StreamOk(s, i))
  }

  // ---------------------------------------------------------------- decisions keep calls in order

  /** A call about to queue: fresh, or about to retry after its first connection closed. */
  ghost predicate ReadyToConnect(s: State, call: Call) {
    && TriedOk(s, call.(phase := Queued(0, 0)))
    && WrittenOk(call)
    && call.submissions <= (if call.exec then 0 else |call.tried|)
    && call.deadline == call.started + CALL_TIMEOUT
    && call.started <= s.now <= call.deadline
    && (!call.retry ==> s.now == call.started)
  }

  lemma StartConnectionOk(s: State, call: Call)
    requires ReadyToConnect(s, call)
    ensures CallOk(s, StartConnection(s, call))
    ensures StartConnection(s, call).phase.Queued? ==> call.peer in s.peers
    ensures StartConnection(s, call).phase.Queued? || StartConnection(s, call).phase.Returned?
  {}

  /** An exchange of this call ended; `submitted` says whether it handed over the request. */
  ghost predicate ReadyToEnd(s: State, call: Call, conn: nat, submitted: bool) {
    && TriedOk(s, call.(phase := Opening(conn, true, 0, 0)))
    && WrittenOk(call)
    && (if call.exec then call.submissions == if submitted then 1 else 0
        else call.submissions <= |call.tried|)
    && call.deadline == call.started + CALL_TIMEOUT
    && call.started <= s.now <= call.deadline
  }

  lemma EndExchangeOk(s: State, call: Call, conn: nat, reused: bool, submitted: bool, error: Error)
    requires ReadyToEnd(s, call, conn, submitted) && !error.OutcomeUnknown?
    ensures var after := EndExchange(s, call, conn, reused, submitted, error);
            && CallOk(s, after)
            && (after.phase.Queued? ==> call.peer in s.peers)
            && (after.phase.Queued? || after.phase.Returned?)
            && after.written == call.written && after.submissions == call.submissions
  {
    if MayRetry(s, call, conn, reused, submitted, error) {
      StartConnectionOk(s, call.(retry := true));
    }
  }

  ghost predicate ReadyToExchange(s: State, call: Call, conn: nat) {
    && TriedOk(s, call.(phase := Queued(0, 0)))
    && WrittenOk(call)
    && conn < |s.conns| && s.conns[conn].peer == call.peer && s.conns[conn].open
    && call.submissions <= (if call.exec then 0 else |call.tried|)
    && call.deadline == call.started + CALL_TIMEOUT
    && call.started <= s.now <= call.deadline
    && (!call.retry ==> s.now <= call.started + DIAL_SECS)
  }

  lemma StartExchangeOk(s: State, call: Call, conn: nat, reused: bool)
    requires ReadyToExchange(s, call, conn)
    ensures var after := StartExchange(s, call, conn, reused);
            && CallOk(s, after)
            && (after.phase.Opening? ==> after.phase.conn == conn)
            && (after.phase.Opening? || after.phase.Returned?)
            && after.written == call.written && after.submissions == call.submissions
  {
    if call.deadline <= s.now {
      EndExchangeOk(s, call.(tried := call.tried + [conn]), conn, reused, false, Timeout);
    }
  }

  lemma StartRpcOk(s: State, call: Call, conn: nat, reused: bool)
    requires CallOk(s, call) && call.phase.Opening? && call.phase.conn == conn
    ensures var after := StartRpc(s, call, conn, reused);
            && CallOk(s, after)
            && (after.phase.Queued? ==> call.peer in s.peers)
            && (after.phase.Rpc? ==> after.phase.conn == conn)
            && (after.phase.Queued? || after.phase.Rpc? || after.phase.Returned?)
            && after.written == call.written
            && after.submissions == call.submissions + if call.deadline > s.now then 1 else 0
  {
    if call.deadline <= s.now {
      EndExchangeOk(s, call, conn, reused, false, Timeout);
    } else if call.size > MAX_FRAME {
      EndExchangeOk(s, call.(submissions := call.submissions + 1), conn, reused, true, FrameTooLarge);
    }
  }

  // ---------------------------------------------------------------- every step keeps it

  lemma InitInv(peers: set<PeerId>)
    ensures Inv(Init(peers))
  {}

  function Actor(step: Step): Option<CallId> {
    if step.Close? || step.Tick? then None else Some(step.c)
  }

  /** What the invariant says about the call that takes the step. */
  ghost predicate ActorOk(s: State, step: Step) {
    Actor(step).Some? ==>
      && PlaceOk(s, step.c)
      && RecordOk(s, step.c)
      && (step.c in s.calls ==> PeerOk(s, s.calls[step.c].peer))
  }

  lemma InvActor(s: State, step: Step)
    requires Inv(s)
    ensures ActorOk(s, step)
  {}

  lemma PeerStep(s: State, step: Step, p: PeerId)
    requires Enabled(s, step) && ActorOk(s, step)
    requires PeerOk(s, p)
    ensures PeerOk(Apply(s, step), p)
  {}

  lemma ConnStep(s: State, step: Step, i: nat)
    requires Enabled(s, step) && ActorOk(s, step)
    requires ConnOk(s, i)
    ensures ConnOk(Apply(s, step), i)
  {}

  /** A call's order depends on connections and the clock only. */
  lemma SameWorld(s: State, t: State, call: Call)
    requires CallOk(s, call) && t.conns == s.conns && t.now == s.now
    ensures CallOk(t, call)
  {}

  lemma LockStep(s: State, c: CallId)
    requires CanLock(s, c) && ActorOk(s, Lock(c))
    ensures RecordOk(DoLock(s, c), c) && PlaceOk(DoLock(s, c), c)
  {
    var call := s.calls[c];
    var cached := s.peers[call.peer].cached;
    if cached.Some? && OpenConn(s, cached.value) {
      var after := StartExchange(s, call, cached.value, true);
      StartExchangeOk(s, call, cached.value, true);
      SameWorld(s, DoLock(s, c), after);
    } else {
      var dialing := call.(phase := Dialing(call.phase.entered, call.phase.until));
      assert CallOk(s, dialing);
      SameWorld(s, DoLock(s, c), dialing);
    }
  }

  lemma DialedStep(s: State, c: CallId)
    requires IsDialing(s, c) && ActorOk(s, Dialed(c))
    ensures RecordOk(DoDialed(s, c), c) && PlaceOk(DoDialed(s, c), c)
  {
    var call, conn := s.calls[c], |s.conns|;
    var t := s.(conns := s.conns + [Conn(call.peer, true)],
                peers := s.peers[call.peer := Peer(None, Some(conn))]);
    StartExchangeOk(t, call, conn, false);
  }

  lemma BeginStep(s: State, c: CallId, peer: PeerId, exec: bool, size: nat)
    ensures CallOk(s, NewCall(s, peer, exec, size))
    ensures NewCall(s, peer, exec, size).phase.Queued? ==> peer in s.peers
    ensures NewCall(s, peer, exec, size).phase.Queued? || NewCall(s, peer, exec, size).phase.Returned?
  {
    StartConnectionOk(s, Call(peer, exec, size, s.now, s.now + CALL_TIMEOUT, false, [], 0, 0, Phase.Dropped));
  }

  lemma OpenedStep(s: State, c: CallId)
    requires IsOpening(s, c) && ActorOk(s, Opened(c))
    ensures RecordOk(DoOpened(s, c), c) && PlaceOk(DoOpened(s, c), c)
  {
    StartRpcOk(s, s.calls[c], s.calls[c].phase.conn, s.calls[c].phase.reused);
  }

  lemma ExchangingIsReady(s: State, call: Call)
    requires CallOk(s, call) && call.phase.Exchanging()
    ensures ReadyToEnd(s, call, call.phase.conn, call.phase.Rpc?)
  {}

  lemma FailedCallOk(s: State, call: Call, error: Error)
    requires CallOk(s, call) && call.phase.Exchanging() && !error.OutcomeUnknown?
    ensures var after := FailedCall(s, call, error);
            && CallOk(s, after)
            && (after.phase.Queued? ==> after.peer in s.peers)
            && (after.phase.Queued? || after.phase.Returned?)
            && after.written == call.written && after.submissions == call.submissions
  {
    ExchangingIsReady(s, call);
    EndExchangeOk(s, call, call.phase.conn, call.phase.reused, call.phase.Rpc?, error);
    EndExchangeKeepsPeer(s, call, call.phase.conn, call.phase.reused, call.phase.Rpc?, error);
  }

  lemma EndExchangeKeepsPeer(s: State, call: Call, conn: nat, reused: bool, submitted: bool, error: Error)
    ensures EndExchange(s, call, conn, reused, submitted, error).peer == call.peer
  {}

  lemma ExchangeFailedStep(s: State, c: CallId, error: Error)
    requires IsExchanging(s, c) && ActorOk(s, Opened(c)) && !error.OutcomeUnknown?
    ensures RecordOk(DoExchangeFailed(s, c, error), c) && PlaceOk(DoExchangeFailed(s, c, error), c)
  {
    var after := FailedCall(s, s.calls[c], error);
    FailedCallOk(s, s.calls[c], error);
    SameWorld(s, s.(calls := s.calls[c := after]), after);
  }

  lemma DialFailedStep(s: State, c: CallId, error: Error)
    requires IsDialing(s, c) && ActorOk(s, Opened(c)) && !error.OutcomeUnknown?
    ensures RecordOk(DoDialFailed(s, c, error), c) && PlaceOk(DoDialFailed(s, c, error), c)
  {}

  lemma ExpireStep(s: State, c: CallId)
    requires CanExpire(s, c) && ActorOk(s, Expire(c))
    ensures RecordOk(DoExpire(s, c), c) && PlaceOk(DoExpire(s, c), c)
  {
    if s.calls[c].phase.Exchanging() {
      ExchangeFailedStep(s, c, Timeout);
    } else if s.calls[c].phase.Dialing? {
      DialFailedStep(s, c, Timeout);
    }
  }

  lemma SettledStep(s: State, step: Step)
    requires Enabled(s, step) && ActorOk(s, step) && (step.Wrote? || step.Replied? || step.Drop?)
    ensures RecordOk(Apply(s, step), step.c) && PlaceOk(Apply(s, step), step.c)
  {}

  /** A step leaves the call that takes it in order. */
  lemma ActorStep(s: State, step: Step)
    requires Enabled(s, step) && ActorOk(s, step) && Actor(step).Some?
    ensures RecordOk(Apply(s, step), step.c) && PlaceOk(Apply(s, step), step.c)
  {
    match step
    case Begin(c, peer, exec, size) => BeginStep(s, c, peer, exec, size);
    case Lock(c) => LockStep(s, c);
    case Dialed(c) => DialedStep(s, c);
    case DialFailed(c, error) => DialFailedStep(s, c, error);
    case Opened(c) => OpenedStep(s, c);
    case ExchangeFailed(c, error) => ExchangeFailedStep(s, c, error);
    case Expire(c) => ExpireStep(s, c);
    case Wrote(_) => SettledStep(s, step);
    case Replied(_, _) => SettledStep(s, step);
    case Drop(_) => SettledStep(s, step);
  }

  /**
   What a step may change around a call that does not take it: connections appear
   and close, time passes up to the call's timer, and a lock it holds is its own.
   */
  ghost predicate Calm(s: State, t: State, c: CallId) {
    && |s.conns| <= |t.conns|
    && (forall i :: 0 <= i < |s.conns| ==>
          t.conns[i].peer == s.conns[i].peer && (t.conns[i].open ==> s.conns[i].open))
    && t.peers.Keys == s.peers.Keys
    && s.now <= t.now
    && (c in t.calls <==> c in s.calls)
    && (c in s.calls ==>
          && t.calls[c] == s.calls[c]
          && (s.calls[c].phase.Active() && s.now <= s.calls[c].phase.until ==> t.now <= s.calls[c].phase.until)
          && (s.calls[c].peer in s.peers && s.peers[s.calls[c].peer].holder == Some(c) ==>
                t.peers[s.calls[c].peer] == s.peers[s.calls[c].peer]))
  }

  lemma StepCalm(s: State, step: Step, c: CallId)
    requires Enabled(s, step) && ActorOk(s, step) && Actor(step) != Some(c)
    ensures Calm(s, Apply(s, step), c)
  {}

  /** No step disturbs another call. */
  lemma BystanderStep(s: State, t: State, c: CallId)
    requires Calm(s, t, c)
    requires PlaceOk(s, c) && RecordOk(s, c)
    requires c in s.calls ==> PeerOk(s, s.calls[c].peer)
    ensures RecordOk(t, c) && PlaceOk(t, c)
  {}

  lemma WritesSnoc(streams: seq<Stream>, stream: Stream, c: CallId)
    ensures Writes(streams + [stream], c) == Writes(streams, c) + if stream.call == c then 1 else 0
  {
    assert (streams + [stream])[..|streams|] == streams;
  }

  /** Only writing writes. */
  lemma SilentStep(s: State, step: Step)
    requires Enabled(s, step) && ActorOk(s, step) && Actor(step).Some? && !step.Wrote?
    ensures Apply(s, step).streams == s.streams
    ensures step.c in Apply(s, step).calls
    ensures Apply(s, step).calls[step.c].written == if step.Begin? then 0 else s.calls[step.c].written
  {}

  lemma WritesStep(s: State, step: Step, c: CallId)
    requires Enabled(s, step) && ActorOk(s, step)
    requires WritesOk(s, c)
    ensures WritesOk(Apply(s, step), c)
  {
    if step.Wrote? {
      WritesSnoc(s.streams, Stream(step.c, s.calls[step.c].phase.conn), c);
    } else if Actor(step) == Some(c) {
      SilentStep(s, step);
    } else if Actor(step).Some? {
      SilentStep(s, step);
      StepCalm(s, step, c);
    }
  }

  lemma KeepsPeer(s: State, step: Step)
    requires Enabled(s, step) && Actor(step).Some? && !step.Begin?
    ensures step.c in s.calls && step.c in Apply(s, step).calls
    ensures Apply(s, step).calls[step.c].peer == s.calls[step.c].peer
  {}

  lemma StreamStep(s: State, step: Step, i: nat)
    requires Enabled(s, step) && ActorOk(s, step)
    requires StreamOk(s, i)
    ensures StreamOk(Apply(s, step), i)
  {
    if Actor(step).Some? && !step.Begin? {
      KeepsPeer(s, step);
    }
    if Actor(step).Some? && !step.Wrote? {
      SilentStep(s, step);
    }
    if i < |s.streams| && Actor(step) != Some(s.streams[i].call) {
      StepCalm(s, step, s.streams[i].call);
    }
  }

  lemma StepInv(s: State, step: Step)
    requires Inv(s)
    ensures Inv(Next(s, step))
  {
    if Enabled(s, step) {
      var t := Apply(s, step);
      InvActor(s, step);
      forall p: PeerId ensures PeerOk(t, p) {
        assert PeerOk(s, p);
        PeerStep(s, step, p);
      }
      forall i: nat ensures ConnOk(t, i) {
        assert ConnOk(s, i);
        ConnStep(s, step, i);
      }
      forall c ensures PlaceOk(t, c) && RecordOk(t, c) {
        assert PlaceOk(s, c) && RecordOk(s, c);
        if Actor(step) == Some(c) {
          ActorStep(s, step);
        } else {
          if c in s.calls {
            assert PeerOk(s, s.calls[c].peer);
          }
          StepCalm(s, step, c);
          BystanderStep(s, t, c);
        }
      }
      forall c ensures WritesOk(t, c) {
        assert WritesOk(s, c);
        WritesStep(s, step, c);
      }
      forall i: nat ensures StreamOk(t, i) {
        assert StreamOk(s, i);
        StreamStep(s, step, i);
      }
    }
  }

  lemma {:induction false} RunInv(s: State, steps: seq<Step>)
    requires Inv(s)
    ensures Inv(Run(s, steps))
  {
    if steps != [] {
      RunInv(s, steps[..|steps| - 1]);
      StepInv(Run(s, steps[..|steps| - 1]), steps[|steps| - 1]);
    }
  }
}
