/** Runs of the whole that show its limits are reached: an exec by each way, and the exception to asking. */
module EndToEndRuns {
  import opened Prelude
  import opened Protocol
  import opened EndToEnd
  import opened EndToEndSafety
  import Client
  import A = Admission
  import D = Dialer
  import L = DialerSafety

  lemma ReachableFollow(w: World, move: Move)
    requires Reachable(w)
    ensures Reachable(Follow(w, move))
  {
    var max: nat, peers: set<D.PeerId>, targetId: D.PeerId, targetMax: nat, moves: seq<Move> :|
      w == Play(Start(max, peers, targetId, targetMax), moves);
    assert (moves + [move])[..|moves|] == moves;
    assert Follow(w, move) == Play(Start(max, peers, targetId, targetMax), moves + [move]);
  }

  function RemoteExec(localSize: nat): Invocation {
    Invocation(Some("host"), Some(0), Client.Request.Exec, localSize, 0)
  }

  /** A world whose one CLI is at `phase` and has asked nobody yet. */
  function Alone(localSize: nat, phase: Phase): World {
    Start(1, {0}, 0, 1).(clis := map[0 := Cli(RemoteExec(localSize), false, 0, phase)])
  }

  lemma AloneStarts(localSize: nat)
    ensures Reachable(Alone(localSize, Starting))
  {
    var w := Start(1, {0}, 0, 1);
    assert w == Play(w, []);
    ReachableFollow(w, Invoke(0, RemoteExec(localSize)));
    assert Follow(w, Invoke(0, RemoteExec(localSize))) == Alone(localSize, Starting);
  }

  /** The exception is real: an oversized local request is reported as unknown, yet the daemon was never asked. */
  lemma OversizedLocalIsUnknownButUnasked(localSize: nat)
    requires localSize > MAX_FRAME
    ensures exists w: World :: Reachable(w) && w == Alone(localSize, Done(Err(OutcomeUnknown(FrameTooLarge))))
  {
    AloneStarts(localSize);
    ReachableFollow(Alone(localSize, Starting), Connect(0));
    assert Follow(Alone(localSize, Starting), Connect(0)) ==
           Alone(localSize, Done(Err(OutcomeUnknown(FrameTooLarge))));
  }

  // ---- the dialer's part of the run

  /** The lone exec, with its request submitted and maybe sent. */
  function Submitted(sent: bool): D.State {
    D.State(0, map[0 := D.Peer(None, Some(0))], [D.Conn(0, true)],
            map[CallOf(0) := D.Call(0, true, 0, 0, D.CALL_TIMEOUT, false, [0], 1, if sent then 1 else 0,
                                    D.Rpc(0, false, sent, 0, D.RPC_SECS))],
            if sent then [D.Stream(CallOf(0), 0)] else [])
  }

  function Replied(ok: bool): D.State {
    Submitted(true).(calls := map[CallOf(0) := Submitted(true).calls[CallOf(0)].(
                                                 phase := D.Returned(Ok(Served(ok)), 0))])
  }

  lemma DialerSends()
    ensures D.Next(L.LoneOpening(CallOf(0), 0, 0, 0), D.Opened(CallOf(0))) == Submitted(false)
    ensures D.Next(Submitted(false), D.Wrote(CallOf(0))) == Submitted(true)
  {
    assert [] + [D.Stream(CallOf(0), 0)] == [D.Stream(CallOf(0), 0)];
  }

  /** The dialer that carries the exec: an own endpoint's, or the daemon's. */
  function WithDialer(w: World, own: bool, s: D.State): World {
    if own then w.(temps := map[0 := s]) else w.(dialer := s)
  }

  function OriginOf(own: bool): nat {
    if own then 1 else 0
  }

  lemma DialerMove(w: World, own: bool, s: D.State, step: D.Step)
    requires Reachable(WithDialer(w, own, s)) && !step.Begin?
    requires MayReply(WithDialer(w, own, s), OriginOf(own), s, step)
    ensures Reachable(WithDialer(w, own, D.Next(s, step)))
  {
    var v := WithDialer(w, own, s);
    var move := if own then TempMoves(0, step) else DialerMoves(step);
    ReachableFollow(v, move);
    if D.Enabled(s, step) {
      assert Follow(v, move) == WithDialer(w, own, D.Next(s, step));
    }
  }

  lemma RequestGoesOut(w: World, own: bool)
    requires Reachable(WithDialer(w, own, L.LoneQueued(CallOf(0), 0)))
    ensures Reachable(WithDialer(w, own, Submitted(true)))
  {
    var c := CallOf(0);
    L.LoneDials(c, 0);
    L.LoneOpens(c, 0, 0);
    DialerSends();
    DialerMove(w, own, L.LoneQueued(c, 0), D.Lock(c));
    DialerMove(w, own, L.LoneDialing(c, 0, 0), D.Dialed(c));
    DialerMove(w, own, L.LoneOpening(c, 0, 0, 0), D.Opened(c));
    DialerMove(w, own, Submitted(false), D.Wrote(c));
  }

  // ---- the target's part

  lemma TargetMove(w: World, target: A.State, step: A.Step)
    requires Reachable(w.(target := target))
    requires step.Accept? ==> OnWire(w.(target := target), step.id)
    ensures Reachable(w.(target := A.Next(target, step)))
  {
    ReachableFollow(w.(target := target), TargetMoves(step));
    if A.Enabled(target, step) {
      assert Follow(w.(target := target), TargetMoves(step)) == w.(target := A.Next(target, step));
    }
  }

  /** The target on one connection, with one permit for each side. */
  function Serving(task: A.TaskPhase, permits: nat, streams: map<A.StreamId, A.Request>, ran: seq<A.Source>): A.State {
    A.State(true, 1, A.MAX_CONNECTIONS - 1, 2, permits, 1, map[0 := task], streams, map[], ran)
  }

  function Ran(id: A.StreamId): A.State {
    Serving(A.Serving, 1, map[id := A.Request(0, A.Replying(false))], [A.FromPeer(id)])
  }

  lemma TargetAccepts(id: A.StreamId)
    ensures A.Next(A.Init(1), A.Incoming(0)) == Serving(A.Handshaking, 1, map[], [])
    ensures A.Next(Serving(A.Handshaking, 1, map[], []), A.Serve(0)) == Serving(A.Serving, 1, map[], [])
    ensures A.Next(Serving(A.Serving, 1, map[], []), A.Accept(0, id)) ==
            Serving(A.Serving, 1, map[id := A.Request(0, A.Reading)], [])
  {}

  lemma TargetDispatches(id: A.StreamId)
    ensures A.Next(Serving(A.Serving, 1, map[id := A.Request(0, A.Reading)], []), A.Read(id)) ==
            Serving(A.Serving, 0, map[id := A.Request(0, A.Running)], [A.FromPeer(id)])
    ensures A.Next(Serving(A.Serving, 0, map[id := A.Request(0, A.Running)], [A.FromPeer(id)]), A.Finish(id)) == Ran(id)
  {}

  lemma PeerConnects(w: World)
    requires Reachable(w) && w.target == A.Init(1)
    ensures Reachable(w.(target := Serving(A.Serving, 1, map[], [])))
  {
    TargetAccepts(A.StreamId(0, 0));
    TargetMove(w, A.Init(1), A.Incoming(0));
    TargetMove(w, Serving(A.Handshaking, 1, map[], []), A.Serve(0));
  }

  lemma RequestArrives(w: World, id: A.StreamId)
    requires Reachable(w) && w.target == A.Init(1) && OnWire(w, id)
    ensures Reachable(w.(target := Serving(A.Serving, 1, map[id := A.Request(0, A.Reading)], [])))
  {
    TargetAccepts(id);
    PeerConnects(w);
    TargetMove(w, Serving(A.Serving, 1, map[], []), A.Accept(0, id));
  }

  lemma RequestRuns(w: World, id: A.StreamId)
    requires Reachable(w) && w.target == A.Init(1) && OnWire(w, id)
    ensures Reachable(w.(target := Ran(id)))
  {
    RequestArrives(w, id);
    TargetDispatches(id);
    TargetMove(w, Serving(A.Serving, 1, map[id := A.Request(0, A.Reading)], []), A.Read(id));
    TargetMove(w, Serving(A.Serving, 0, map[id := A.Request(0, A.Running)], [A.FromPeer(id)]), A.Finish(id));
  }

  lemma SentRequestRuns(w: World, own: bool)
    requires Reachable(WithDialer(w, own, Submitted(true))) && w.target == A.Init(1) && w.targetId == 0
    ensures var id := A.StreamId(OriginOf(own), 0);
            Reachable(WithDialer(w.(target := Ran(id)), own, Submitted(true)))
  {
    var id := A.StreamId(OriginOf(own), 0);
    assert OnWire(WithDialer(w, own, Submitted(true)), id);
    RequestRuns(WithDialer(w, own, Submitted(true)), id);
    assert WithDialer(w, own, Submitted(true)).(target := Ran(id)) ==
           WithDialer(w.(target := Ran(id)), own, Submitted(true));
  }

  lemma ReplyReturns(w: World, own: bool, ok: bool)
    requires Reachable(WithDialer(w, own, Submitted(true)))
    requires w.target == Ran(A.StreamId(OriginOf(own), 0)) && w.targetId == 0
    ensures Reachable(WithDialer(w, own, Replied(ok)))
  {
    var id := A.StreamId(OriginOf(own), 0);
    assert Submitted(true).streams[0].call == CallOf(0) && HasReply(Ran(id), id, false);
    assert RepliedTo(Ran(id), OriginOf(own), Submitted(true), CallOf(0), false);
    DialerMove(w, own, Submitted(true), D.Step.Replied(CallOf(0), Served(ok)));
    assert D.Next(Submitted(true), D.Step.Replied(CallOf(0), Served(ok))) == Replied(ok);
  }

  /** Sent, run and replied to: what remains is to hand the reply to the CLI. */
  lemma RequestIsServed(w: World, own: bool, ok: bool)
    requires Reachable(WithDialer(w, own, L.LoneQueued(CallOf(0), 0)))
    requires w.target == A.Init(1) && w.targetId == 0
    ensures Reachable(WithDialer(w, own, Replied(ok)).(target := Ran(A.StreamId(OriginOf(own), 0))))
  {
    var v := w.(target := Ran(A.StreamId(OriginOf(own), 0)));
    RequestGoesOut(w, own);
    SentRequestRuns(w, own);
    ReplyReturns(v, own, ok);
    assert WithDialer(v, own, Replied(ok)) == WithDialer(w, own, Replied(ok)).(target := v.target);
  }

  // ---- on an own endpoint

  lemma CliFallsBack()
    ensures Follow(Alone(0, Starting), NoDaemon(0)) == Alone(0, FellBack)
    ensures Follow(Alone(0, FellBack), BindEndpoint(0, {0})) ==
            WithDialer(Alone(0, OnOwnEndpoint), true, L.LoneQueued(CallOf(0), 0))
  {
    L.LoneDials(CallOf(0), 0);
  }

  function OnOwnEnd(phase: Phase, ok: bool): World {
    WithDialer(Alone(0, phase), true, Replied(ok)).(target := Ran(A.StreamId(1, 0)))
  }

  /** The exec ran once, was written once, and the CLI has its response. */
  ghost predicate RanOnce(w: World, ok: bool) {
    && Reachable(w) && IsExec(w, 0) && w.clis[0].phase == Done(Ok(Served(ok)))
    && PeerWrites(w, 0) == 1 && TargetRuns(w, w.target.dispatched, 0) == 1
  }

  lemma CliHasReply(ok: bool)
    ensures Follow(OnOwnEnd(OnOwnEndpoint, ok), OwnReturns(0)) == OnOwnEnd(Done(Ok(Served(ok))), ok)
  {}

  /** A CLI whose exec was served, by whoever carried it, has seen one write and one run. */
  lemma ServedIsRanOnce(w: World, ok: bool)
    requires Reachable(w) && IsExec(w, 0) && w.clis[0].what.Remote() && w.clis[0].what.peer == Some(w.targetId)
    requires w.clis[0].phase == Done(Ok(Served(ok)))
    ensures RanOnce(w, ok)
  {
    ResponseTellsRuns(w, 0);
  }

  lemma OwnEndpointStarts()
    ensures Reachable(WithDialer(Alone(0, OnOwnEndpoint), true, L.LoneQueued(CallOf(0), 0)))
  {
    AloneStarts(0);
    CliFallsBack();
    ReachableFollow(Alone(0, Starting), NoDaemon(0));
    ReachableFollow(Alone(0, FellBack), BindEndpoint(0, {0}));
  }

  lemma OwnCallReturns(ok: bool)
    ensures Reachable(OnOwnEnd(OnOwnEndpoint, ok))
  {
    OwnEndpointStarts();
    RequestIsServed(Alone(0, OnOwnEndpoint), true, ok);
  }

  lemma OwnEndpointCanRun(ok: bool)
    ensures RanOnce(OnOwnEnd(Done(Ok(Served(ok))), ok), ok)
  {
    OwnCallReturns(ok);
    CliHasReply(ok);
    ReachableFollow(OnOwnEnd(OnOwnEndpoint, ok), OwnReturns(0));
    ServedIsRanOnce(OnOwnEnd(Done(Ok(Served(ok))), ok), ok);
  }

  // ---- through the daemon

  /** The daemon with the CLI's request at `phase`. */
  function Hosting(slots: nat, permits: nat, phase: A.Phase, ran: seq<A.Source>): A.State {
    A.State(true, 1, A.MAX_CONNECTIONS, slots, 1, permits, map[], map[], map[0 := phase], ran)
  }

  function AskingWorld(daemon: A.State): World {
    Alone(0, Asking).(clis := map[0 := Cli(RemoteExec(0), true, 0, Asking)], daemon := daemon)
  }

  lemma DaemonIsAsked()
    ensures Follow(Alone(0, Starting), Connect(0)) == AskingWorld(Hosting(1, 1, A.Reading, []))
  {}

  lemma DaemonLetsIn()
    ensures A.Enabled(Hosting(1, 1, A.Reading, []), A.LocalRead(0))
    ensures A.DoLocalRead(Hosting(1, 1, A.Reading, []), 0) == Hosting(1, 0, A.Running, [A.FromLocal(0)])
  {}

  lemma DaemonForwards()
    ensures Follow(AskingWorld(Hosting(1, 1, A.Reading, [])), ReadLocal(0)) ==
            WithDialer(AskingWorld(Hosting(1, 0, A.Running, [A.FromLocal(0)])), false, L.LoneQueued(CallOf(0), 0))
  {
    DaemonLetsIn();
    L.LoneDials(CallOf(0), 0);
  }

  function ViaDaemonEnd(daemon: A.State, phase: Phase, ok: bool): World {
    WithDialer(AskingWorld(daemon), false, Replied(ok)).(
      clis := map[0 := Cli(RemoteExec(0), true, 0, phase)], target := Ran(A.StreamId(0, 0)))
  }

  function Answer(phase: A.Phase, slots: nat): A.State {
    Hosting(slots, 1, phase, [A.FromLocal(0)])
  }

  lemma CallEnds(ok: bool)
    ensures Follow(ViaDaemonEnd(Hosting(1, 0, A.Running, [A.FromLocal(0)]), Asking, ok), FinishLocal(0)) ==
            ViaDaemonEnd(Answer(A.Replying(false), 1), Asking, ok)
  {}

  lemma DaemonReplies(ok: bool)
    ensures Follow(ViaDaemonEnd(Answer(A.Replying(false), 1), Asking, ok), DaemonMoves(A.LocalReply(0, true))) ==
            ViaDaemonEnd(Answer(A.Ended(A.Answered(false)), 2), Asking, ok)
  {}

  lemma CliIsAnswered(ok: bool)
    ensures Follow(ViaDaemonEnd(Answer(A.Ended(A.Answered(false)), 2), Asking, ok), EndToEnd.Answered(0, ok)) ==
            ViaDaemonEnd(Answer(A.Ended(A.Answered(false)), 2), Done(Ok(Served(ok))), ok)
  {}

  lemma DaemonHasForwarded()
    ensures Reachable(WithDialer(AskingWorld(Hosting(1, 0, A.Running, [A.FromLocal(0)])), false,
                                 L.LoneQueued(CallOf(0), 0)))
  {
    AloneStarts(0);
    DaemonIsAsked();
    DaemonForwards();
    ReachableFollow(Alone(0, Starting), Connect(0));
    ReachableFollow(AskingWorld(Hosting(1, 1, A.Reading, [])), ReadLocal(0));
  }

  lemma AnswerReachesCli(ok: bool)
    requires Reachable(ViaDaemonEnd(Hosting(1, 0, A.Running, [A.FromLocal(0)]), Asking, ok))
    ensures Reachable(ViaDaemonEnd(Answer(A.Ended(A.Answered(false)), 2), Done(Ok(Served(ok))), ok))
  {
    CallEnds(ok);
    DaemonReplies(ok);
    CliIsAnswered(ok);
    ReachableFollow(ViaDaemonEnd(Hosting(1, 0, A.Running, [A.FromLocal(0)]), Asking, ok), FinishLocal(0));
    ReachableFollow(ViaDaemonEnd(Answer(A.Replying(false), 1), Asking, ok), DaemonMoves(A.LocalReply(0, true)));
    ReachableFollow(ViaDaemonEnd(Answer(A.Ended(A.Answered(false)), 2), Asking, ok), EndToEnd.Answered(0, ok));
  }

  lemma DaemonCanRun(ok: bool)
    ensures RanOnce(ViaDaemonEnd(Answer(A.Ended(A.Answered(false)), 2), Done(Ok(Served(ok))), ok), ok)
  {
    var running := Hosting(1, 0, A.Running, [A.FromLocal(0)]);
    DaemonHasForwarded();
    RequestIsServed(AskingWorld(running), false, ok);
    assert ViaDaemonEnd(running, Asking, ok) ==
           WithDialer(AskingWorld(running), false, Replied(ok)).(target := Ran(A.StreamId(0, 0)));
    AnswerReachesCli(ok);
    ServedIsRanOnce(ViaDaemonEnd(Answer(A.Ended(A.Answered(false)), 2), Done(Ok(Served(ok))), ok), ok);
  }

  /**
   The limit of one is not met by never running anything: through the daemon and on an
   own endpoint an exec can run and its response come back, and one whose dispatch
   failed, as on too much output, ran too.
   */
  lemma ExecCanRun(ok: bool)
    ensures exists w: World :: RanOnce(w, ok) && w.clis[0].asked && CallOf(0) in w.dialer.calls
    ensures exists w: World :: RanOnce(w, ok) && !w.clis[0].asked && 0 in w.temps
  {
    DaemonCanRun(ok);
    OwnEndpointCanRun(ok);
    var via := ViaDaemonEnd(Answer(A.Ended(A.Answered(false)), 2), Done(Ok(Served(ok))), ok);
    assert via.clis[0].asked && CallOf(0) in via.dialer.calls;
    var own := OnOwnEnd(Done(Ok(Served(ok))), ok);
    assert !own.clis[0].asked && 0 in own.temps;
  }
}
