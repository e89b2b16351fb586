/** What callers of the dialer can rely on in every reachable state. */
module DialerSafety {
  import opened Prelude
  import opened Protocol
  import opened Dialer

  ghost predicate Reachable(s: State) {
    exists peers: set<PeerId>, steps: seq<Step> {:trigger Run(Init(peers), steps)} :: s == Run(Init(peers), steps)
  }

  lemma ReachableInv(s: State)
    requires Reachable(s)
    ensures Inv(s)
  {
    var peers: set<PeerId>, steps: seq<Step> :| s == Run(Init(peers), steps);
    InitInv(peers);
    RunInv(Init(peers), steps);
  }

  lemma RunSnoc(s: State, steps: seq<Step>, step: Step)
    ensures Run(s, steps + [step]) == Next(Run(s, steps), step)
  {
    assert (steps + [step])[..|steps|] == steps;
  }

  // ---------------------------------------------------------------- exec at most once, told honestly

  /** Whatever fails, an exec goes out on at most one stream; other requests on at most two. */
  lemma ExecWrittenAtMostOnce(s: State, c: CallId)
    requires Reachable(s) && c in s.calls
    ensures Writes(s.streams, c) <= if s.calls[c].exec then 1 else 2
  {
    ReachableInv(s);
    assert RecordOk(s, c) && WritesOk(s, c);
  }

  /**
   A reply means that the exec went out, once. An error other than `OutcomeUnknown`
   means that it was never submitted, so running it again is safe. `OutcomeUnknown`
   means that it was submitted once; then it went out at most once, and not at all if
   it exceeds a frame.
   */
  lemma HonestVerdict(s: State, c: CallId)
    requires Reachable(s) && c in s.calls && s.calls[c].exec && s.calls[c].phase.Returned?
    ensures match s.calls[c].phase.result
            case Ok(_) => s.calls[c].submissions == 1
            case Err(error) => s.calls[c].submissions == if error.OutcomeUnknown? then 1 else 0
    ensures match s.calls[c].phase.result
            case Ok(_) => Writes(s.streams, c) == 1
            case Err(error) =>
              && (!error.OutcomeUnknown? ==> Writes(s.streams, c) == 0)
              && (error.OutcomeUnknown? ==> Writes(s.streams, c) <= 1)
              && (s.calls[c].size > MAX_FRAME ==> Writes(s.streams, c) == 0)
  {
    ReachableInv(s);
    assert RecordOk(s, c) && WritesOk(s, c);
  }

  lemma ReachableNext(s: State, step: Step)
    requires Reachable(s)
    ensures Reachable(Next(s, step))
  {
    var peers: set<PeerId>, steps: seq<Step> :| s == Run(Init(peers), steps);
    RunSnoc(Init(peers), steps, step);
    assert Next(s, step) == Run(Init(peers), steps + [step]);
  }

  /** A world with one peer, one exec and nothing else. */
  function LoneCall(c: CallId, size: nat, now: nat, peer: Peer, conns: seq<Conn>, tried: seq<nat>, phase: Phase): State {
    State(now, map[0 := peer], conns, map[c := Call(0, true, size, 0, CALL_TIMEOUT, false, tried, 0, 0, phase)], [])
  }

  function LoneQueued(c: CallId, size: nat): State {
    LoneCall(c, size, 0, Peer(None, None), [], [], Queued(0, DIAL_SECS))
  }

  function LoneDialing(c: CallId, size: nat, now: nat): State {
    LoneCall(c, size, now, Peer(Some(c), None), [], [], Dialing(0, DIAL_SECS))
  }

  function LoneOpening(c: CallId, size: nat, entered: nat, now: nat): State {
    LoneCall(c, size, now, Peer(None, Some(0)), [Conn(0, true)], [0], Opening(0, false, entered, entered + IO_SECS))
  }

  lemma LoneDials(c: CallId, size: nat)
    ensures Next(Init({0}), Begin(c, 0, true, size)) == LoneQueued(c, size)
    ensures Next(LoneQueued(c, size), Lock(c)) == LoneDialing(c, size, 0)
  {
    assert Init({0}).peers == map[0 := Peer(None, None)];
  }

  lemma LoneOpens(c: CallId, size: nat, now: nat)
    requires now <= DIAL_SECS
    ensures Next(LoneDialing(c, size, now), Dialed(c)) == LoneOpening(c, size, now, now)
  {
    assert [] + [0] == [0];
  }

  lemma OpeningIsReachable(c: CallId, size: nat)
    ensures Reachable(LoneOpening(c, size, 0, 0))
  {
    assert Init({0}) == Run(Init({0}), []);
    LoneDials(c, size);
    LoneOpens(c, size, 0);
    ReachableNext(Init({0}), Begin(c, 0, true, size));
    ReachableNext(LoneQueued(c, size), Lock(c));
    ReachableNext(LoneDialing(c, size, 0), Dialed(c));
  }

  /** `s` told the caller of an exec of this size that the outcome is unknown, after `n` writes. */
  ghost predicate UnknownAfter(s: State, c: CallId, size: nat, n: nat) {
    && c in s.calls && s.calls[c].exec && s.calls[c].size == size
    && s.calls[c].phase.Returned? && s.calls[c].phase.result.Err? && s.calls[c].phase.result.error.OutcomeUnknown?
    && Writes(s.streams, c) == n
  }

  lemma UnsentEnds(c: CallId, size: nat) returns (s: State)
    ensures Reachable(s) && UnknownAfter(s, c, size, 0)
  {
    OpeningIsReachable(c, size);
    ReachableNext(LoneOpening(c, size, 0, 0), Opened(c));
    s := Next(LoneOpening(c, size, 0, 0), Opened(c));
    if size <= MAX_FRAME {
      var lost := ExchangeFailed(c, Io(ConnectionLost));
      ReachableNext(s, lost);
      s := Next(s, lost);
    }
  }

  lemma SentEnds(c: CallId, size: nat) returns (s: State)
    requires size <= MAX_FRAME
    ensures Reachable(s) && UnknownAfter(s, c, size, 1)
  {
    OpeningIsReachable(c, size);
    ReachableNext(LoneOpening(c, size, 0, 0), Opened(c));
    s := Next(LoneOpening(c, size, 0, 0), Opened(c));
    ReachableNext(s, Wrote(c));
    s := Next(s, Wrote(c));
    assert s.streams == [Stream(c, 0)] && s.streams[..0] == [];
    var lost := ExchangeFailed(c, Io(ConnectionLost));
    ReachableNext(s, lost);
    s := Next(s, lost);
  }

  /**
   That is all `OutcomeUnknown` says, for every size: it can come with nothing sent,
   and with one request sent exactly if the request fits a frame.
   */
  lemma UnknownSaysNoMore(c: CallId, size: nat, n: nat)
    ensures (exists s :: Reachable(s) && UnknownAfter(s, c, size, n)) <==> n == 0 || (n == 1 && size <= MAX_FRAME)
  {
    forall s | Reachable(s) && UnknownAfter(s, c, size, n) ensures n == 0 || (n == 1 && size <= MAX_FRAME) {
      HonestVerdict(s, c);
    }
    if n == 0 {
      var s := UnsentEnds(c, size);
    } else if n == 1 && size <= MAX_FRAME {
      var s := SentEnds(c, size);
    }
  }

  /** The exception is real: a request too large for a frame is reported as unknown, yet nothing was sent. */
  lemma OversizedExecIsUnknownButUnsent(c: CallId)
    ensures var s := Run(Init({0}), [Begin(c, 0, true, MAX_FRAME + 1), Lock(c), Dialed(c), Opened(c)]);
            && c in s.calls
            && s.calls[c].phase == Returned(Err(OutcomeUnknown(FrameTooLarge)), 0)
            && Writes(s.streams, c) == 0
  {
    var a, b, d, e := Begin(c, 0, true, MAX_FRAME + 1), Lock(c), Dialed(c), Opened(c);
    assert [a, b, d, e][..3] == [a, b, d] && [a, b, d][..2] == [a, b] && [a, b][..1] == [a] && [a][..0] == [];
    var s0 := Init({0});
    assert Run(s0, [a]) == Next(s0, a);
    assert Run(s0, [a, b]) == Next(Next(s0, a), b);
    assert Run(s0, [a, b, d]) == Next(Next(Next(s0, a), b), d);
  }

  // ---------------------------------------------------------------- one open connection per peer

  /** Of all connections ever handed out for a peer, only the cached one can be open. */
  lemma OnlyCachedIsOpen(s: State, i: nat)
    requires Reachable(s) && i < |s.conns| && s.conns[i].open
    ensures s.conns[i].peer in s.peers && s.peers[s.conns[i].peer].cached == Some(i)
  {
    ReachableInv(s);
    assert ConnOk(s, i);
  }

  /** Callers for one peer wait for a single dial. */
  lemma OneDialPerPeer(s: State, c: CallId, d: CallId)
    requires Reachable(s) && IsDialing(s, c) && IsDialing(s, d) && s.calls[c].peer == s.calls[d].peer
    ensures c == d
  {
    ReachableInv(s);
    assert PlaceOk(s, c) && PlaceOk(s, d);
  }

  function Dials(conns: seq<Conn>, p: PeerId): nat {
    if conns == [] then 0
    else Dials(conns[..|conns| - 1], p) + if conns[|conns| - 1].peer == p then 1 else 0
  }

  function Closed(conns: seq<Conn>, p: PeerId): nat {
    if conns == [] then 0
    else Closed(conns[..|conns| - 1], p) +
         if conns[|conns| - 1].peer == p && !conns[|conns| - 1].open then 1 else 0
  }

  lemma {:induction false} OpenIsExtra(conns: seq<Conn>, p: PeerId, open: nat)
    requires forall i :: 0 <= i < |conns| && conns[i].open && conns[i].peer == p ==> i == open
    ensures Dials(conns, p) <= Closed(conns, p) + if open < |conns| then 1 else 0
  {
    if conns != [] {
      OpenIsExtra(conns[..|conns| - 1], p, open);
    }
  }

  /** A peer is dialed successfully at most once more often than its connections closed. */
  lemma DialsAreEarned(s: State, p: PeerId)
    requires Reachable(s)
    ensures Dials(s.conns, p) <= 1 + Closed(s.conns, p)
  {
    ReachableInv(s);
    forall i: nat | i < |s.conns| ensures ConnOk(s, i) {}
    var open := if p in s.peers && s.peers[p].cached.Some? then s.peers[p].cached.value else 0;
    forall i | 0 <= i < |s.conns| && s.conns[i].open && s.conns[i].peer == p ensures i == open {
      assert ConnOk(s, i);
    }
    OpenIsExtra(s.conns, p, open);
  }

  // ---------------------------------------------------------------- safe retry

  /** At most two exchanges, the second on a different connection and after the first one closed. */
  lemma SafeRetry(s: State, c: CallId)
    requires Reachable(s) && c in s.calls
    ensures var tried := s.calls[c].tried;
            && |tried| <= 2
            && (|tried| == 2 ==> tried[0] != tried[1] && tried[0] < |s.conns| && !s.conns[tried[0]].open)
  {
    ReachableInv(s);
    assert RecordOk(s, c);
  }

  /**
   After a failure of any kind, expiry included, a call queues again exactly when its
   reused connection is closed, the loss left nothing that could run twice, and there
   is time left. While the connection is open, as after a stream reset, it returns at
   once. Locks, cache and connections stay as they are either way.
   */
  lemma RetryDecision(s: State, c: CallId, error: Error)
    requires Reachable(s) && IsExchanging(s, c)
    ensures var call := s.calls[c];
            var t := DoExchangeFailed(s, c, error);
            var again := && !call.retry && call.phase.reused && !OpenConn(s, call.phase.conn)
                         && error.FailureKind() == ConnectionLost && (call.phase.Opening? || !call.exec);
            && t.peers == s.peers && t.conns == s.conns && t.streams == s.streams
            && (t.calls[c].phase.Queued? <==> again && s.now < call.deadline)
            && (Reported(error) || error == Timeout ==>
                  (error.FailureKind() == ConnectionLost <==> error in {Io(ConnectionLost), Transport(ConnectionLost)}))
            && (!t.calls[c].phase.Queued? ==>
                  t.calls[c].phase == Returned(
                    Err(if again then Timeout
                        else if call.exec && call.phase.Rpc? then OutcomeUnknown(error) else error), s.now))
  {
    ReachableInv(s);
    assert PlaceOk(s, c) && RecordOk(s, c);
    assert ConnOk(s, s.calls[c].phase.conn);
  }

  // ---------------------------------------------------------------- what each step decides

  /** Nothing but the calls changed, and of these at most `c`. */
  ghost predicate OnlyCall(s: State, t: State, c: CallId) {
    && t.now == s.now && t.peers == s.peers && t.conns == s.conns && t.streams == s.streams
    && c in t.calls && t.calls == s.calls[c := t.calls[c]]
  }

  /** A call for a configured peer queues with its whole budget; any other ends at once, as invalid. */
  lemma BeginDecides(s: State, c: CallId, peer: PeerId, exec: bool, size: nat)
    requires Enabled(s, Begin(c, peer, exec, size))
    ensures var t := Apply(s, Begin(c, peer, exec, size));
            && OnlyCall(s, t, c)
            && var call := t.calls[c];
               && call.peer == peer && call.exec == exec && call.size == size
               && call.started == s.now && call.deadline == s.now + 110
               && !call.retry && call.tried == [] && call.submissions == call.written == 0
               && (peer in s.peers ==> call.phase == Queued(s.now, s.now + 30))
               && (peer !in s.peers ==>
                     call.phase.Returned? && call.phase.result.Err? && call.phase.result.error.Invalid?)
  {}

  /**
   Whoever gets the lock reuses the cached connection if that is open, and gives the
   lock back; otherwise it dials under the lock, on what is left of the same phase.
   */
  lemma LockDecides(s: State, c: CallId)
    requires Reachable(s) && CanLock(s, c)
    ensures var t, call := DoLock(s, c), s.calls[c];
            var cached := s.peers[call.peer].cached;
            && t.conns == s.conns && t.streams == s.streams
            && if cached.Some? && OpenConn(s, cached.value) then
                 && t.peers == s.peers
                 && t.calls[c].tried == call.tried + [cached.value]
                 && if s.now < call.deadline then
                      && t.calls[c].phase.Opening? && t.calls[c].phase.entered == s.now
                      && t.calls[c].phase.conn == cached.value && t.calls[c].phase.reused
                    else t.calls[c].phase == Returned(Err(Timeout), s.now)
               else
                 && t.peers == s.peers[call.peer := Peer(Some(c), cached)]
                 && t.calls[c].phase == Dialing(call.phase.entered, call.phase.until)
  {
    ReachableInv(s);
    assert PlaceOk(s, c) && RecordOk(s, c);
  }

  /** A dialed connection is cached and used; it does not count as reused, so its loss is final. */
  lemma DialedDecides(s: State, c: CallId)
    requires Reachable(s) && IsDialing(s, c)
    ensures var t, call := DoDialed(s, c), s.calls[c];
            && t.conns == s.conns + [Conn(call.peer, true)]
            && t.peers == s.peers[call.peer := Peer(None, Some(|s.conns|))]
            && t.streams == s.streams
            && t.calls[c].tried == call.tried + [|s.conns|]
            && if s.now < call.deadline then
                 && t.calls[c].phase.Opening? && t.calls[c].phase.entered == s.now
                 && t.calls[c].phase.conn == |s.conns| && !t.calls[c].phase.reused
               else t.calls[c].phase == Returned(Err(Timeout), s.now)
  {
    ReachableInv(s);
    assert PlaceOk(s, c) && RecordOk(s, c);
  }

  /** A failed dial ends its call with that very error, an expired wait or dial with a timeout; the cache stays. */
  lemma ConnectingFails(s: State, c: CallId, step: Step)
    requires Reachable(s) && Enabled(s, step) && (step.DialFailed? || step.Expire?) && step.c == c
    requires s.calls[c].phase.Queued? || s.calls[c].phase.Dialing?
    ensures var t, call := Apply(s, step), s.calls[c];
            && t.calls == s.calls[c := call.(phase := Returned(Err(if step.Expire? then Timeout else step.error), s.now))]
            && t.conns == s.conns && t.streams == s.streams
            && t.peers == if call.phase.Dialing? then s.peers[call.peer := Peer(None, s.peers[call.peer].cached)]
                          else s.peers
  {
    ReachableInv(s);
    assert PlaceOk(s, c);
  }

  /** An open stream means one submission, unless the budget is gone; an oversized request ends there. */
  lemma OpenedDecides(s: State, c: CallId)
    requires Reachable(s) && IsOpening(s, c)
    ensures var t, call := DoOpened(s, c), s.calls[c];
            && OnlyCall(s, t, c)
            && t.calls[c].submissions == call.submissions + (if s.now < call.deadline then 1 else 0)
            && if s.now >= call.deadline then t.calls[c].phase == Returned(Err(Timeout), s.now)
               else if call.size > MAX_FRAME then
                 t.calls[c].phase ==
                 Returned(Err(if call.exec then OutcomeUnknown(FrameTooLarge) else FrameTooLarge), s.now)
               else
                 && t.calls[c].phase.Rpc? && !t.calls[c].phase.sent && t.calls[c].phase.entered == s.now
                 && t.calls[c].phase.conn == call.phase.conn && t.calls[c].phase.reused == call.phase.reused
  {
    ReachableInv(s);
    assert PlaceOk(s, c) && RecordOk(s, c);
  }

  /**
   No call is stuck and none runs ahead: which steps a call can take is decided by its
   phase, the lock, its connection and the clock alone.
   */
  lemma WhatCallsCanDo(s: State, c: CallId, error: Error, response: Response)
    requires Reachable(s) && c in s.calls && Reported(error)
    ensures s.calls[c].phase.Queued? ==> s.calls[c].peer in s.peers
    ensures s.calls[c].phase.Rpc? ==> s.calls[c].phase.conn < |s.conns|
    ensures var call := s.calls[c];
            && (Enabled(s, Lock(c)) <==> call.phase.Queued? && s.peers[call.peer].holder.None?)
            && (Enabled(s, Dialed(c)) <==> call.phase.Dialing?)
            && (Enabled(s, DialFailed(c, error)) <==> call.phase.Dialing?)
            && (Enabled(s, Opened(c)) <==> call.phase.Opening?)
            && (Enabled(s, Wrote(c)) <==> call.phase.Rpc? && !call.phase.sent && s.conns[call.phase.conn].open)
            && (Enabled(s, ExchangeFailed(c, error)) <==> call.phase.Opening? || call.phase.Rpc?)
            && (Enabled(s, Replied(c, response)) <==> call.phase.Rpc? && call.phase.sent)
            && (Enabled(s, Drop(c)) <==> call.phase.Active())
            && (Enabled(s, Expire(c)) <==> call.phase.Active() && s.now == call.phase.until)
            && forall conn: nat :: Enabled(s, Close(conn)) <==> conn < |s.conns|
  {
    ReachableInv(s);
    assert PlaceOk(s, c) && RecordOk(s, c);
  }

  /** Only an exec is ever told that its outcome is unknown. */
  lemma OnlyExecsAreUnknown(s: State, c: CallId)
    requires Reachable(s) && c in s.calls && s.calls[c].phase.Returned? && s.calls[c].phase.result.Err?
    ensures s.calls[c].phase.result.error.OutcomeUnknown? ==> s.calls[c].exec
  {
    ReachableInv(s);
    assert RecordOk(s, c);
  }

  lemma CachedStep(s: State, step: Step, p: PeerId, i: nat)
    requires Inv(s) && p in s.peers && s.peers[p].cached == Some(i) && OpenConn(s, i)
    requires step != Close(i)
    ensures p in Next(s, step).peers && Next(s, step).peers[p].cached == Some(i) && OpenConn(Next(s, step), i)
  {
    if Enabled(s, step) {
      InvActor(s, step);
      assert PeerOk(s, p);
    }
  }

  /** Nothing but its own closing makes the dialer replace a live connection. */
  lemma {:induction false} LiveConnectionIsKept(s: State, more: seq<Step>, p: PeerId, i: nat)
    requires Inv(s) && p in s.peers && s.peers[p].cached == Some(i) && OpenConn(s, i)
    requires Close(i) !in more
    ensures var t := Run(s, more);
            p in t.peers && t.peers[p].cached == Some(i) && OpenConn(t, i)
  {
    if more != [] {
      var front := more[..|more| - 1];
      LiveConnectionIsKept(s, front, p, i);
      RunInv(s, front);
      CachedStep(Run(s, front), more[|more| - 1], p, i);
    }
  }

  function StreamsOn(streams: seq<Stream>, conn: nat): nat {
    if streams == [] then 0
    else StreamsOn(streams[..|streams| - 1], conn) + if streams[|streams| - 1].conn == conn then 1 else 0
  }

  lemma ClosedStep(s: State, step: Step, i: nat)
    requires Inv(s) && Enabled(s, step) && i < |s.conns| && !s.conns[i].open
    ensures var t := Apply(s, step);
            i < |t.conns| && !t.conns[i].open && StreamsOn(t.streams, i) == StreamsOn(s.streams, i)
  {
    InvActor(s, step);
    if step.Wrote? {
      var stream := Stream(step.c, s.calls[step.c].phase.conn);
      assert (s.streams + [stream])[..|s.streams|] == s.streams;
    } else if Actor(step).Some? {
      SilentStep(s, step);
    }
  }

  /** A connection that closed stays closed, and no request goes out on it any more. */
  lemma {:induction false} ClosedCarriesNothingNew(s: State, more: seq<Step>, i: nat)
    requires Inv(s) && i < |s.conns| && !s.conns[i].open
    ensures var t := Run(s, more);
            i < |t.conns| && !t.conns[i].open && StreamsOn(t.streams, i) == StreamsOn(s.streams, i)
  {
    if more != [] {
      var front, last := more[..|more| - 1], more[|more| - 1];
      ClosedCarriesNothingNew(s, front, i);
      RunInv(s, front);
      if Enabled(Run(s, front), last) {
        ClosedStep(Run(s, front), last, i);
      }
    }
  }

  // ---------------------------------------------------------------- timed budget

  /** Every call is over within the call timeout, queueing and retry included; no phase starts late. */
  lemma WithinBudget(s: State, c: CallId)
    requires Reachable(s) && c in s.calls
    ensures var call := s.calls[c];
            && (call.phase.Returned? ==> call.phase.at <= call.started + 110)
            && (call.phase.Active() ==>
                  && s.now <= call.phase.until <= call.started + 110
                  && call.phase.entered < call.started + 110)
  {
    ReachableInv(s);
    assert RecordOk(s, c);
  }

  /**
   Every phase, of a retry too, has its own limit of 30, 15 or 65 seconds, cut short
   only where the call's 110 seconds are over. Queueing and dialing are one phase.
   */
  lemma EveryPhaseHasItsLimit(s: State, c: CallId)
    requires Reachable(s) && c in s.calls && s.calls[c].phase.Active()
    ensures var call := s.calls[c];
            var limit := match call.phase
                         case Opening(_, _, _, _) => 15
                         case Rpc(_, _, _, _, _) => 65
                         case _ => 30;
            call.phase.until ==
            if call.phase.entered + limit <= call.started + 110 then call.phase.entered + limit else call.started + 110
  {
    ReachableInv(s);
    assert RecordOk(s, c);
  }

  /** The shared deadline never shortens a phase of a first attempt. */
  lemma FirstAttemptHasFullPhases(s: State, c: CallId)
    requires Reachable(s) && c in s.calls && !s.calls[c].retry && s.calls[c].phase.Active()
    ensures var phase := s.calls[c].phase;
            phase.until == phase.entered + (if phase.Opening? then IO_SECS
                                            else if phase.Rpc? then RPC_SECS else DIAL_SECS)
  {
    ReachableInv(s);
    assert RecordOk(s, c);
  }

  /** A first attempt outwaits the slowest work a server may do, with the margin to spare. */
  lemma SlowestWorkFits(s: State, c: CallId, work: nat)
    requires Reachable(s) && c in s.calls && !s.calls[c].retry && s.calls[c].phase.Rpc?
    requires work <= MAX_EXEC_SECONDS
    ensures s.calls[c].phase.entered + work + 5 <= s.calls[c].phase.until
  {
    FirstAttemptHasFullPhases(s, c);
  }

  /** A cold call that dials and opens as slowly as it may. */
  function SlowOpening(c: CallId): seq<Step> {
    [] + [Begin(c, 0, true, 0)] + [Lock(c)] + [Tick(DIAL_SECS)] + [Dialed(c)] + [Tick(DIAL_SECS + IO_SECS)]
  }

  lemma SlowTicks(c: CallId)
    ensures Next(LoneDialing(c, 0, 0), Tick(DIAL_SECS)) == LoneDialing(c, 0, DIAL_SECS)
    ensures Next(LoneOpening(c, 0, DIAL_SECS, DIAL_SECS), Tick(DIAL_SECS + IO_SECS)) ==
            LoneOpening(c, 0, DIAL_SECS, DIAL_SECS + IO_SECS)
  {}

  lemma SlowOpeningEnds(c: CallId)
    ensures Run(Init({0}), SlowOpening(c)) == LoneOpening(c, 0, DIAL_SECS, DIAL_SECS + IO_SECS)
  {
    LoneDials(c, 0);
    LoneOpens(c, 0, DIAL_SECS);
    SlowTicks(c);
    var s0, steps := Init({0}), [] + [Begin(c, 0, true, 0)];
    RunSnoc(s0, [], Begin(c, 0, true, 0));
    RunSnoc(s0, steps, Lock(c));
    RunSnoc(s0, steps + [Lock(c)], Tick(DIAL_SECS));
    RunSnoc(s0, steps + [Lock(c)] + [Tick(DIAL_SECS)], Dialed(c));
    RunSnoc(s0, steps + [Lock(c)] + [Tick(DIAL_SECS)] + [Dialed(c)], Tick(DIAL_SECS + IO_SECS));
  }

  /** ... and not by a second to spare: slow dialing and opening leave the last phase exactly its limit. */
  lemma BudgetIsTight(c: CallId)
    ensures var s := Run(Init({0}), SlowOpening(c) + [Opened(c)]);
            && c in s.calls && s.calls[c].phase.Rpc?
            && s.calls[c].phase.until == s.calls[c].phase.entered + RPC_SECS == s.calls[c].started + CALL_TIMEOUT
  {
    SlowOpeningEnds(c);
    RunSnoc(Init({0}), SlowOpening(c), Opened(c));
  }

  /** A daemon that starts a forwarded call within the margin has its result before the CLI gives up. */
  lemma CliOutwaitsDaemon(s: State, c: CallId, asked: nat)
    requires Reachable(s) && c in s.calls && s.calls[c].phase.Returned?
    requires s.calls[c].started <= asked + MARGIN_SECS
    ensures s.calls[c].phase.at <= asked + LOCAL_TIMEOUT && LOCAL_TIMEOUT == 115
  {
    WithinBudget(s, c);
  }

  /** Time is never blocked: if it cannot pass, some timer is due and can fire. */
  lemma TimersUnblockTime(s: State)
    requires Reachable(s) && !CanTick(s, s.now + 1)
    ensures exists c :: CanExpire(s, c)
  {
    ReachableInv(s);
    var c :| c in s.calls && s.calls[c].phase.Active() && s.now + 1 > s.calls[c].phase.until;
    assert RecordOk(s, c) && PlaceOk(s, c);
    assert CanExpire(s, c);
  }
}
