/** What one exec invocation can cause, whatever fails along its way. */
module EndToEndSafety {
  import opened Prelude
  import opened Protocol
  import opened EndToEnd
  import A = Admission
  import D = Dialer

  ghost predicate Reachable(w: World) {
    exists max: nat, peers: set<D.PeerId>, targetId: D.PeerId, targetMax: nat, moves: seq<Move>
      {:trigger Play(Start(max, peers, targetId, targetMax), moves)} ::
      w == Play(Start(max, peers, targetId, targetMax), moves)
  }

  lemma {:induction false} PlayOk(w: World, moves: seq<Move>)
    requires WorldOk(w)
    ensures WorldOk(Play(w, moves))
  {
    if moves != [] {
      PlayOk(w, moves[..|moves| - 1]);
      FollowOk(Play(w, moves[..|moves| - 1]), moves[|moves| - 1]);
    }
  }

  lemma ReachableOk(w: World)
    requires Reachable(w)
    ensures WorldOk(w)
  {
    var max: nat, peers: set<D.PeerId>, targetId: D.PeerId, targetMax: nat, moves: seq<Move> :|
      w == Play(Start(max, peers, targetId, targetMax), moves);
    StartOk(max, peers, targetId, targetMax);
    PlayOk(Start(max, peers, targetId, targetMax), moves);
  }

  lemma ReachableCli(w: World, inv: nat)
    requires Reachable(w)
    ensures CliOk(w, inv)
  {
    ReachableOk(w);
  }

  predicate IsExec(w: World, inv: nat) {
    inv in w.clis && w.clis[inv].what.request.Exec?
  }

  // ---------------------------------------------------------------- writes

  /** The two ways to a peer exclude each other, and each writes an exec at most once. */
  lemma WrittenAtMostOnce(w: World, inv: nat)
    requires Reachable(w) && IsExec(w, inv)
    ensures PeerWrites(w, inv) <= 1
    ensures inv in w.temps ==> D.Writes(w.dialer.streams, CallOf(inv)) == 0
  {
    ReachableOk(w);
    assert CliOk(w, inv) && TempOk(w, inv);
    assert D.RecordOk(w.dialer, CallOf(inv)) && D.WritesOk(w.dialer, CallOf(inv));
    if inv in w.temps {
      assert D.RecordOk(w.temps[inv], CallOf(inv)) && D.WritesOk(w.temps[inv], CallOf(inv));
    }
  }

  lemma {:induction false} WritesAt(streams: seq<D.Stream>, c: D.CallId, i: nat)
    requires i < |streams| && streams[i].call == c
    ensures D.Writes(streams, c) >= 1
  {
    if i < |streams| - 1 {
      WritesAt(streams[..|streams| - 1], c, i);
    }
  }

  lemma {:induction false} WritesAtTwo(streams: seq<D.Stream>, c: D.CallId, i: nat, j: nat)
    requires i < j < |streams| && streams[i].call == c && streams[j].call == c
    ensures D.Writes(streams, c) >= 2
  {
    var front := streams[..|streams| - 1];
    if j == |front| {
      WritesAt(front, c, i);
    } else {
      WritesAtTwo(front, c, i, j);
    }
  }

  lemma SameStream(streams: seq<D.Stream>, c: D.CallId, i: nat, j: nat)
    requires D.Writes(streams, c) <= 1
    requires i < |streams| && j < |streams| && streams[i].call == c && streams[j].call == c
    ensures i == j
  {
    if i < j {
      WritesAtTwo(streams, c, i, j);
    } else if j < i {
      WritesAtTwo(streams, c, j, i);
    }
  }

  /** A stream that carries an invocation comes from the daemon or from the invocation's own endpoint. */
  lemma CarrierOrigin(w: World, inv: nat, id: A.StreamId)
    requires Reachable(w) && Carries(w, id, inv)
    ensures id.origin == 0 || (id.origin == inv + 1 && inv in w.temps)
    ensures id.origin == 0 ==> D.Writes(w.dialer.streams, CallOf(inv)) >= 1
    ensures id.origin == inv + 1 ==> D.Writes(w.temps[inv].streams, CallOf(inv)) >= 1
  {
    ReachableOk(w);
    WritesAt(SentBy(w, id.origin), CallOf(inv), id.index);
    if id.origin != 0 {
      var other := id.origin - 1;
      assert TempOk(w, other) && D.WritesOk(w.temps[other], CallOf(inv));
    }
  }

  /** All streams that carry one exec are the same stream. */
  lemma OneCarrier(w: World, inv: nat, x: A.StreamId, y: A.StreamId)
    requires Reachable(w) && IsExec(w, inv) && Carries(w, x, inv) && Carries(w, y, inv)
    ensures x == y
  {
    WrittenAtMostOnce(w, inv);
    CarrierOrigin(w, inv, x);
    CarrierOrigin(w, inv, y);
    SameStream(SentBy(w, x.origin), CallOf(inv), x.index, y.index);
  }

  // ---------------------------------------------------------------- runs on the target

  lemma {:induction false} RunsOfOneStream(w: World, dispatched: seq<A.Source>, inv: nat, id: A.StreamId)
    requires Carries(w, id, inv)
    requires forall other :: Carries(w, other, inv) ==> other == id
    ensures TargetRuns(w, dispatched, inv) == A.Dispatches(dispatched, A.FromPeer(id))
  {
    if dispatched != [] {
      RunsOfOneStream(w, dispatched[..|dispatched| - 1], inv, id);
    }
  }

  lemma {:induction false} NoRunsWithoutStream(w: World, dispatched: seq<A.Source>, inv: nat)
    requires forall id :: !Carries(w, id, inv)
    ensures TargetRuns(w, dispatched, inv) == 0
  {
    if dispatched != [] {
      NoRunsWithoutStream(w, dispatched[..|dispatched| - 1], inv);
    }
  }

  lemma RunsAtMostWrites(w: World, inv: nat)
    requires Reachable(w) && IsExec(w, inv)
    ensures TargetRuns(w, w.target.dispatched, inv) <= PeerWrites(w, inv)
  {
    ReachableOk(w);
    if id :| Carries(w, id, inv) {
      forall other | Carries(w, other, inv) ensures other == id {
        OneCarrier(w, inv, other, id);
      }
      RunsOfOneStream(w, w.target.dispatched, inv, id);
      assert A.StreamOk(w.target, id);
      CarrierOrigin(w, inv, id);
    } else {
      NoRunsWithoutStream(w, w.target.dispatched, inv);
    }
  }

  // ---------------------------------------------------------------- theorems

  /**
   One exec invocation runs at most once anywhere: in this process or on the target,
   never both, over every interleaving of CLI, daemon, dialers, target and failures.
   */
  lemma ExecRunsAtMostOnce(w: World, inv: nat)
    requires Reachable(w) && IsExec(w, inv)
    ensures w.clis[inv].ranHere + TargetRuns(w, w.target.dispatched, inv) <= 1
  {
    RunsAtMostWrites(w, inv);
    WrittenAtMostOnce(w, inv);
    ReachableOk(w);
    assert CliOk(w, inv);
    if w.clis[inv].ranHere > 0 {
      assert CallOf(inv) !in w.dialer.calls && inv !in w.temps;
      assert D.WritesOk(w.dialer, CallOf(inv));
    }
  }

  function CallsOf(w: World, origin: nat): map<D.CallId, D.Call> {
    if origin == 0 then w.dialer.calls
    else if origin - 1 in w.temps then w.temps[origin - 1].calls
    else map[]
  }

  /** A stream runs on a connection to the peer that its sender's call is for. */
  lemma StreamHasCall(w: World, id: A.StreamId)
    requires Reachable(w) && id.index < |SentBy(w, id.origin)|
    ensures var stream := SentBy(w, id.origin)[id.index];
            && stream.conn < |ConnsOf(w, id.origin)| && stream.call in CallsOf(w, id.origin)
            && ConnsOf(w, id.origin)[stream.conn].peer == CallsOf(w, id.origin)[stream.call].peer
  {
    ReachableOk(w);
    if id.origin == 0 {
      assert D.StreamOk(w.dialer, id.index);
    } else {
      assert TempOk(w, id.origin - 1);
      assert D.StreamOk(w.temps[id.origin - 1], id.index);
    }
  }

  /** Everything the target dispatched was written for it: by a sender's call to the target, on a connection to it. */
  lemma NothingRunsUnsent(w: World, id: A.StreamId)
    requires Reachable(w) && A.Dispatches(w.target.dispatched, A.FromPeer(id)) > 0
    ensures OnWire(w, id)
    ensures var c := SentBy(w, id.origin)[id.index].call;
            c in CallsOf(w, id.origin) && CallsOf(w, id.origin)[c].peer == w.targetId
  {
    ReachableOk(w);
    assert A.StreamOk(w.target, id) && WireOk(w, id);
    StreamHasCall(w, id);
  }

  /** A CLI uses its own endpoint only if its request never went to the daemon, which then never acts on it. */
  lemma FallbackOnlyIfUnasked(w: World, inv: nat)
    requires Reachable(w) && inv in w.clis && (inv in w.temps || w.clis[inv].phase.FellBack?)
    ensures !w.clis[inv].asked && inv !in w.daemon.locals && CallOf(inv) !in w.dialer.calls
    ensures A.Dispatches(w.daemon.dispatched, A.FromLocal(inv)) == 0
  {
    ReachableOk(w);
    assert CliOk(w, inv) && A.LocalOk(w.daemon, inv);
  }

  /**
   `invoke` returns an error other than `OutcomeUnknown` for a remote exec only if the
   request was never written to a peer and never ran, at that time or ever after.
   */
  lemma CliVerdictIsHonest(w: World, inv: nat)
    requires Reachable(w) && IsExec(w, inv) && w.clis[inv].what.Remote()
    requires w.clis[inv].phase.Done? && w.clis[inv].phase.result.Err?
    requires !w.clis[inv].phase.result.error.OutcomeUnknown?
    ensures PeerWrites(w, inv) == 0
    ensures TargetRuns(w, w.target.dispatched, inv) == 0
  {
    ReachableOk(w);
    assert CliOk(w, inv) && TempOk(w, inv);
    assert D.WritesOk(w.dialer, CallOf(inv));
    if inv in w.temps {
      assert D.RecordOk(w.temps[inv], CallOf(inv)) && D.WritesOk(w.temps[inv], CallOf(inv));
    }
    RunsAtMostWrites(w, inv);
  }

  /**
   `invoke` returns `OutcomeUnknown` for a remote exec only after one submission: to a
   peer on an own endpoint, or else to the daemon. The exception is a local request
   that exceeds a frame, exactly then the daemon was never asked, and nothing ran.
   */
  lemma UnknownMeansSubmittedOnce(w: World, inv: nat)
    requires Reachable(w) && IsExec(w, inv) && w.clis[inv].what.Remote()
    requires w.clis[inv].phase.Done? && w.clis[inv].phase.result.Err?
    requires w.clis[inv].phase.result.error.OutcomeUnknown?
    ensures inv in w.temps ==>
      && !w.clis[inv].asked
      && CallOf(inv) in w.temps[inv].calls && w.temps[inv].calls[CallOf(inv)].submissions == 1
      && (w.clis[inv].what.size > MAX_FRAME ==> PeerWrites(w, inv) == 0)
    ensures inv !in w.temps ==> (w.clis[inv].asked <==> w.clis[inv].what.localSize <= MAX_FRAME)
    ensures inv !in w.temps && !w.clis[inv].asked ==>
      PeerWrites(w, inv) == 0 && TargetRuns(w, w.target.dispatched, inv) == 0
  {
    ReachableOk(w);
    assert CliOk(w, inv) && TempOk(w, inv);
    assert D.WritesOk(w.dialer, CallOf(inv));
    if inv in w.temps {
      assert D.RecordOk(w.temps[inv], CallOf(inv)) && D.WritesOk(w.temps[inv], CallOf(inv));
    }
    RunsAtMostWrites(w, inv);
  }

  // ---------------------------------------------------------------- what a response tells

  /** A reply to the carrier of an exec says whether the exec ran. */
  lemma ReplyTellsRuns(w: World, inv: nat, origin: nat, s: D.State, busy: bool)
    requires Reachable(w) && IsExec(w, inv)
    requires (origin == 0 && s == w.dialer) || (origin == inv + 1 && inv in w.temps && s == w.temps[inv])
    requires RepliedTo(w.target, origin, s, CallOf(inv), busy)
    ensures TargetRuns(w, w.target.dispatched, inv) == if busy then 0 else 1
  {
    ReachableOk(w);
    var i :| 0 <= i < |s.streams| && s.streams[i].call == CallOf(inv) && HasReply(w.target, A.StreamId(origin, i), busy);
    var id := A.StreamId(origin, i);
    assert Carries(w, id, inv);
    forall other | Carries(w, other, inv) ensures other == id {
      OneCarrier(w, inv, other, id);
    }
    RunsOfOneStream(w, w.target.dispatched, inv, id);
    assert A.StreamOk(w.target, id);
  }

  lemma {:induction false} DispatchedAt(dispatched: seq<A.Source>, i: nat)
    requires i < |dispatched|
    ensures A.Dispatches(dispatched, dispatched[i]) >= 1
  {
    if i < |dispatched| - 1 {
      DispatchedAt(dispatched[..|dispatched| - 1], i);
    }
  }

  lemma {:induction false} RunsOfOthers(w: World, dispatched: seq<A.Source>, inv: nat)
    requires forall i :: 0 <= i < |dispatched| && dispatched[i].FromPeer? ==> !Carries(w, dispatched[i].id, inv)
    ensures TargetRuns(w, dispatched, inv) == 0
  {
    if dispatched != [] {
      RunsOfOthers(w, dispatched[..|dispatched| - 1], inv);
    }
  }

  /** The target runs nothing that is meant for another peer. */
  lemma NoRunsElsewhere(w: World, inv: nat)
    requires Reachable(w) && inv in w.clis && w.clis[inv].what.peer != Some(w.targetId)
    ensures TargetRuns(w, w.target.dispatched, inv) == 0
  {
    ReachableOk(w);
    assert CliOk(w, inv);
    forall i | 0 <= i < |w.target.dispatched| && w.target.dispatched[i].FromPeer?
      ensures !Carries(w, w.target.dispatched[i].id, inv)
    {
      DispatchedAt(w.target.dispatched, i);
      var id := w.target.dispatched[i].id;
      NothingRunsUnsent(w, id);
      if Carries(w, id, inv) {
        CarrierOrigin(w, inv, id);
      }
    }
    RunsOfOthers(w, w.target.dispatched, inv);
  }

  /** The call that a response came from; there is none if the daemon refused or did not forward. */
  lemma ResponseOrigin(w: World, inv: nat)
    requires Reachable(w) && IsExec(w, inv) && w.clis[inv].what.Remote()
    requires w.clis[inv].phase.Done? && w.clis[inv].phase.result.Ok?
    ensures var response := w.clis[inv].phase.result.value;
            if inv in w.temps then
              CallReturned(w.temps[inv], inv) && w.temps[inv].calls[CallOf(inv)].phase.result == Ok(response)
            else if CallOf(inv) in w.dialer.calls then
              && CallReturned(w.dialer, inv)
              && w.dialer.calls[CallOf(inv)].phase.result ==
                 if response.NotForwarded? then Err(response.error) else Ok(response)
            else
              response == Busy || response == NotForwarded(Invalid("unknown peer"))
  {
    ReachableOk(w);
    assert CliOk(w, inv) && ReplyOk(w, inv);
  }

  /** A response that a call returned: written once, and run unless busy. */
  lemma RelayedTells(w: World, inv: nat, origin: nat, s: D.State)
    requires Reachable(w) && IsExec(w, inv)
    requires (origin == 0 && s == w.dialer) || (origin == inv + 1 && inv in w.temps && s == w.temps[inv])
    requires CallReturned(s, inv) && s.calls[CallOf(inv)].phase.result.Ok?
    ensures !s.calls[CallOf(inv)].phase.result.value.NotForwarded?
    ensures PeerWrites(w, inv) == 1
    ensures TargetRuns(w, w.target.dispatched, inv) ==
            if s.calls[CallOf(inv)].phase.result.value.Busy? || w.clis[inv].what.peer != Some(w.targetId) then 0 else 1
  {
    ReachableOk(w);
    assert CliOk(w, inv) && ReplyOk(w, inv) && TempOk(w, inv);
    assert D.RecordOk(s, CallOf(inv)) && D.WritesOk(s, CallOf(inv));
    WrittenAtMostOnce(w, inv);
    if w.clis[inv].what.peer != Some(w.targetId) {
      NoRunsElsewhere(w, inv);
    } else {
      ReplyTellsRuns(w, inv, origin, s, s.calls[CallOf(inv)].phase.result.value.Busy?);
    }
  }

  /**
   What a response to a remote exec tells. One that was served, well or not, was
   written once and ran once on the peer it was for; a busy one did not run. If the
   daemon says that it could not forward, then the request was never written and did
   not run, unless it says "outcome unknown": then it was submitted to the peer once.
   */
  lemma ResponseTellsRuns(w: World, inv: nat)
    requires Reachable(w) && IsExec(w, inv) && w.clis[inv].what.Remote()
    requires w.clis[inv].phase.Done? && w.clis[inv].phase.result.Ok?
    ensures match w.clis[inv].phase.result.value
            case Served(_) =>
              && PeerWrites(w, inv) == 1
              && TargetRuns(w, w.target.dispatched, inv) ==
                 if w.clis[inv].what.peer == Some(w.targetId) then 1 else 0
            case Busy => TargetRuns(w, w.target.dispatched, inv) == 0
            case NotForwarded(error) =>
              if error.OutcomeUnknown? then
                && CallOf(inv) in w.dialer.calls && w.dialer.calls[CallOf(inv)].submissions == 1
                && (w.clis[inv].what.size > MAX_FRAME ==> PeerWrites(w, inv) == 0)
              else PeerWrites(w, inv) == 0 && TargetRuns(w, w.target.dispatched, inv) == 0
  {
    ReachableOk(w);
    assert CliOk(w, inv);
    ResponseOrigin(w, inv);
    assert D.RecordOk(w.dialer, CallOf(inv)) && D.WritesOk(w.dialer, CallOf(inv));
    RunsAtMostWrites(w, inv);
    if inv in w.temps {
      RelayedTells(w, inv, inv + 1, w.temps[inv]);
    } else if CallReturned(w.dialer, inv) && w.dialer.calls[CallOf(inv)].phase.result.Ok? {
      RelayedTells(w, inv, 0, w.dialer);
    }
  }

  /** A request that the busy daemon refused is never sent on, so its answer may be taken at its word. */
  lemma RefusedIsNotForwarded(w: World, inv: nat)
    requires Reachable(w) && IsExec(w, inv) && inv in w.daemon.locals
    requires w.daemon.locals[inv] in {A.Replying(true), A.Ended(A.Answered(true)), A.Ended(A.ReplyLost(true))}
    ensures PeerWrites(w, inv) == 0
    ensures w.clis[inv].ranHere + TargetRuns(w, w.target.dispatched, inv) == 0
  {
    ReachableOk(w);
    assert CliOk(w, inv);
    assert D.WritesOk(w.dialer, CallOf(inv));
    RunsAtMostWrites(w, inv);
  }

  // ---------------------------------------------------------------- who serves a request

  /**
   The daemon forwards every request for a known alias that it lets in, and no other:
   the request is called exactly if it was not refused, as what it is and to whom it is.
   */
  lemma ForwardedIffAdmitted(w: World, inv: nat)
    requires Reachable(w) && inv in w.clis && w.clis[inv].what.Remote()
    ensures CallOf(inv) in w.dialer.calls <==>
            inv in w.daemon.locals && w.daemon.locals[inv].Ran() && w.clis[inv].what.peer.Some?
    ensures CallOf(inv) in w.dialer.calls ==>
            var call, what := w.dialer.calls[CallOf(inv)], w.clis[inv].what;
            what.peer == Some(call.peer) && call.exec == what.request.Exec? && call.size == what.size
  {
    ReachableCli(w, inv);
  }

  /** A remote request is answered by its peer, refused, or not forwarded; an unknown alias is the only case without a call. */
  lemma AnswerWithoutCall(w: World, inv: nat)
    requires Reachable(w) && inv in w.clis && w.clis[inv].what.Remote() && w.clis[inv].asked
    requires w.clis[inv].phase.Done? && w.clis[inv].phase.result.Ok? && CallOf(inv) !in w.dialer.calls
    ensures match w.clis[inv].phase.result.value
            case Busy => A.Dispatches(w.daemon.dispatched, A.FromLocal(inv)) == 0
            case NotForwarded(error) => error.Invalid? && w.clis[inv].what.peer.None?
            case Served(_) => false
  {
    ReachableOk(w);
    assert CliOk(w, inv) && A.LocalOk(w.daemon, inv);
  }

  /** A request for this node is never sent to a peer. An exec runs in the CLI's process, once, and asks no daemon. */
  lemma LocalStaysHere(w: World, inv: nat)
    requires Reachable(w) && inv in w.clis && !w.clis[inv].what.Remote()
    ensures CallOf(inv) !in w.dialer.calls && inv !in w.temps && PeerWrites(w, inv) == 0
    ensures IsExec(w, inv) ==> !w.clis[inv].asked && inv !in w.daemon.locals
    ensures IsExec(w, inv) && w.clis[inv].phase.Done? ==> w.clis[inv].ranHere == 1
    ensures w.clis[inv].phase.Done? && w.clis[inv].phase.result.Ok? ==>
              var response := w.clis[inv].phase.result.value;
              if w.clis[inv].asked then
                && (response == Busy || response.Served?)
                && A.Dispatches(w.daemon.dispatched, A.FromLocal(inv)) == if response == Busy then 0 else 1
              else response == Served(true) && w.clis[inv].ranHere == 1
  {
    ReachableOk(w);
    assert CliOk(w, inv) && A.LocalOk(w.daemon, inv) && D.WritesOk(w.dialer, CallOf(inv));
  }

  /** Only a remote exec is ever reported as unknown. */
  lemma OnlyRemoteExecsAreUnknown(w: World, inv: nat)
    requires Reachable(w) && inv in w.clis && w.clis[inv].phase.Done? && w.clis[inv].phase.result.Err?
    ensures w.clis[inv].phase.result.error.OutcomeUnknown? ==> IsExec(w, inv) && w.clis[inv].what.Remote()
  {
    ReachableCli(w, inv);
  }

  /** The CLI is asked about this node: no alias, or `self`. */
  predicate HereAsked(what: Invocation) {
    what.target.None? || what.target.value == "self"
  }

  /**
   How a CLI starts. An exec or a health check of this node runs in process and nowhere
   else; every other request asks the daemon first.
   */
  lemma HowClisStart(w: World, inv: nat, ok: bool, error: Error)
    requires Reachable(w) && inv in w.clis && w.clis[inv].phase.Starting? && error.Io?
    ensures var what := w.clis[inv].what;
            var inProcess := HereAsked(what) && (what.request.Exec? || what.request.Health?);
            && (Possible(w, RunInProcess(inv, ok)) <==> inProcess)
            && (Possible(w, NoDaemon(inv)) <==> !inProcess)
            && (Possible(w, ConnectFails(inv, error)) <==> !inProcess)
            && (Possible(w, Connect(inv)) <==> !inProcess && w.daemon.up)
  {
    ReachableCli(w, inv);
  }

  /**
   What is left without a daemon: other probes of this node than `peers` run in process,
   a known alias is called from an own endpoint, and history is not to be had.
   */
  lemma HowClisFallBack(w: World, inv: nat, ok: bool, peers: set<D.PeerId>, error: Error)
    requires Reachable(w) && inv in w.clis && w.clis[inv].phase.FellBack? && error.Invalid?
    ensures var what := w.clis[inv].what;
            && (Possible(w, RunInProcess(inv, ok)) <==>
                  HereAsked(what) && what.request.Probe? && what.request.kind != Peers)
            && (Possible(w, BindEndpoint(inv, peers)) <==> !HereAsked(what) && what.peer.Some?)
            && Possible(w, NoFallback(inv, error))
            && !Possible(w, NoDaemon(inv)) && !Possible(w, Connect(inv))
  {
    ReachableCli(w, inv);
  }

  /** A CLI that asked waits for the answer, or fails; one with an own endpoint waits for its call; any may be killed. */
  lemma HowClisEnd(w: World, inv: nat, ok: bool)
    requires Reachable(w) && inv in w.clis
    ensures Possible(w, EndToEnd.Answered(inv, ok)) <==> w.clis[inv].phase.Asking? && AnswerReady(w, inv)
    ensures Possible(w, AskFails(inv, Timeout)) <==> w.clis[inv].phase.Asking?
    ensures Possible(w, OwnReturns(inv)) <==>
            w.clis[inv].phase.OnOwnEndpoint? && inv in w.temps && CallReturned(w.temps[inv], inv)
    ensures w.clis[inv].phase.OnOwnEndpoint? ==> inv in w.temps
    ensures Possible(w, Kill(inv)) <==> !w.clis[inv].phase.Done?
    ensures Possible(w, Kill(inv)) ==>
              Act(w, Kill(inv)) == w.(clis := w.clis[inv := w.clis[inv].(phase := Killed)])
  {
    ReachableCli(w, inv);
  }

  /** The daemon reads what it let in, and finishes it once its call, if any, is over. */
  lemma WhatTheDaemonCanDo(w: World, inv: nat)
    requires Reachable(w) && inv in w.daemon.locals && w.daemon.up
    ensures inv in w.clis
    ensures Possible(w, ReadLocal(inv)) <==> w.daemon.locals[inv].Reading?
    ensures Possible(w, FinishLocal(inv)) <==>
            w.daemon.locals[inv].Running? && (CallOf(inv) in w.dialer.calls ==> CallReturned(w.dialer, inv))
  {
    ReachableCli(w, inv);
  }
}
