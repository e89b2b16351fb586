/**
 The dialer as an object: the code that runs between two await points of a call.
 What a call keeps in local variables is passed in; ghost state ties every method
 to one step of the `Dialer` model.
 */
module PeerCache {
  import opened Prelude
  import opened Protocol
  import opened Dialer

  /** A peer's mutex and the connection it guards. */
  datatype Entry = Entry(locked: bool, cached: Option<nat>)

  class PeerCache {
    var peers: map<PeerId, Entry>
    /** Per connection ever made: no close reason yet. */
    var open: seq<bool>
    var now: nat
    ghost var model: State

    ghost predicate Valid()
      reads this
    {
      && Inv(model)
      && now == model.now
      && peers.Keys == model.peers.Keys
      && (forall p :: p in peers ==>
            peers[p].locked == model.peers[p].holder.Some? && peers[p].cached == model.peers[p].cached)
      && |open| == |model.conns|
      && (forall i :: 0 <= i < |open| ==> open[i] == model.conns[i].open)
    }

    constructor (ids: set<PeerId>)
      ensures Valid() && model == Init(ids)
    {
      peers := map p | p in ids :: Entry(false, None);
      open, now := [], 0;
      model := Init(ids);
      new;
      InitInv(ids);
    }

    /** A call starts; for a peer that is not configured it ends at once. */
    method Begin(ghost c: CallId, peer: PeerId, ghost exec: bool, ghost size: nat) returns (queued: bool)
      requires Valid() && c !in model.calls
      modifies this`model
      ensures Valid() && model == Apply(old(model), Step.Begin(c, peer, exec, size))
      ensures queued <==> peer in peers
      ensures queued ==> model.calls[c].phase == Queued(now, now + DIAL_SECS)
      ensures !queued ==> model.calls[c].phase.Returned? && model.calls[c].phase.result.Err?
    {
      StepInv(model, Step.Begin(c, peer, exec, size));
      model := Apply(model, Step.Begin(c, peer, exec, size));
      queued := peer in peers;
    }

    /** The lock is free: take the cached connection if it is open, else keep the lock to dial. */
    method Lock(ghost c: CallId, peer: PeerId) returns (reuse: Option<nat>)
      requires Valid() && CanLock(model, c) && model.calls[c].peer == peer
      modifies this
      ensures Valid() && model == DoLock(old(model), c)
      ensures reuse.None? <==> model.calls[c].phase.Dialing?
      ensures reuse.Some? ==> OpenConn(model, reuse.value) && model.peers == old(model).peers
    {
      assert PeerOk(model, peer);
      StepInv(model, Step.Lock(c));
      ghost var before := model;
      model := DoLock(model, c);
      var cached := peers[peer].cached;
      if cached.Some? && open[cached.value] {
        StartExchangeEnters(before, before.calls[c], cached.value, true);
        return cached;
      }
      peers := peers[peer := peers[peer].(locked := true)];
      return None;
    }

    /** The dial succeeded: cache the connection and release the lock. */
    method Dialed(ghost c: CallId, peer: PeerId) returns (conn: nat)
      requires Valid() && IsDialing(model, c) && model.calls[c].peer == peer
      modifies this
      ensures Valid() && model == DoDialed(old(model), c)
      ensures conn == |old(model).conns| && OpenConn(model, conn) && model.peers[peer] == Peer(None, Some(conn))
    {
      StepInv(model, Step.Dialed(c));
      model := DoDialed(model, c);
      conn := |open|;
      open := open + [true];
      peers := peers[peer := Entry(false, Some(conn))];
    }

    /** The dial failed, ran out of time or was dropped: only the lock is released. */
    method Unlock(ghost step: Step, peer: PeerId)
      requires Valid() && Enabled(model, step) && (step.DialFailed? || step.Expire? || step.Drop?)
      requires IsDialing(model, step.c) && model.calls[step.c].peer == peer
      modifies this
      ensures Valid() && model == Apply(old(model), step)
      ensures model.peers[peer].cached == old(model).peers[peer].cached
    {
      StepInv(model, step);
      model := Apply(model, step);
      peers := peers[peer := peers[peer].(locked := false)];
    }

    /** A call that waits for the lock expires, or one that holds no lock is dropped. */
    ghost method GiveUp(step: Step)
      requires Valid() && Enabled(model, step) && (step.Expire? || step.Drop?)
      requires var phase := model.calls[step.c].phase; phase.Queued? || (step.Drop? && phase.Exchanging())
      modifies this`model
      ensures Valid() && model == Apply(old(model), step)
      ensures !model.calls[step.c].phase.Active()
    {
      StepInv(model, step);
      model := Apply(model, step);
    }

    /** A stream is open: hand over the request, unless the budget is gone. */
    method Submit(ghost c: CallId, deadline: nat) returns (submitted: bool)
      requires Valid() && IsOpening(model, c) && model.calls[c].deadline == deadline
      modifies this`model
      ensures Valid() && model == DoOpened(old(model), c)
      ensures submitted <==> model.calls[c].submissions == old(model).calls[c].submissions + 1
      ensures model.streams == old(model).streams
    {
      InvActor(model, Opened(c));
      StartRpcOk(model, model.calls[c], model.calls[c].phase.conn, model.calls[c].phase.reused);
      StepInv(model, Opened(c));
      model := DoOpened(model, c);
      submitted := now < deadline;
    }

    /** The stream takes the request's first byte if its connection is still open. */
    method Write(ghost c: CallId, conn: nat) returns (taken: bool)
      requires Valid() && c in model.calls
      requires model.calls[c].phase.Rpc? && !model.calls[c].phase.sent && model.calls[c].phase.conn == conn
      modifies this`model
      ensures Valid()
      ensures taken <==> OpenConn(old(model), conn)
      ensures model == if taken then DoWrite(old(model), c) else old(model)
    {
      assert PlaceOk(model, c);
      taken := open[conn];
      if taken {
        StepInv(model, Wrote(c));
        model := DoWrite(model, c);
      }
    }

    /** The reply arrived. */
    ghost method Reply(c: CallId, response: Response)
      requires Valid() && IsAwaitingReply(model, c)
      modifies this`model
      ensures Valid() && model == DoReplied(old(model), c, response)
    {
      StepInv(model, Replied(c, response));
      model := DoReplied(model, c, response);
    }

    /** The guard of the one retry, evaluated when an exchange has failed or expired. */
    method AfterFailure(
        ghost c: CallId, ghost step: Step,
        conn: nat, reused: bool, exec: bool, retried: bool, submitted: bool, deadline: nat, error: Error)
      returns (again: bool)
      requires Valid() && IsExchanging(model, c) && Enabled(model, step)
      requires step == ExchangeFailed(c, error) || (step == Expire(c) && error == Timeout)
      requires var call := model.calls[c];
               && call.deadline == deadline
               && call.phase.conn == conn && call.phase.reused == reused && call.phase.Rpc? == submitted
               && call.exec == exec && call.retry == retried
      modifies this`model
      ensures Valid() && model == DoExchangeFailed(old(model), c, error)
      ensures again <==> MayRetry(old(model), old(model).calls[c], conn, reused, submitted, error) && now < deadline
      ensures again ==> model.calls[c].phase.Queued? && model.calls[c].retry
      ensures !again ==>
        model.calls[c].phase == Returned(
          Err(if MayRetry(old(model), old(model).calls[c], conn, reused, submitted, error) then Timeout
              else Verdict(exec, submitted, error)), now)
    {
      assert PlaceOk(model, c) && RecordOk(model, c);
      assert ConnOk(model, conn);
      StepInv(model, step);
      model := DoExchangeFailed(model, c, error);
      again := !retried && reused && (!submitted || !exec) && error.FailureKind() == ConnectionLost && !open[conn]
               && now < deadline;
    }

    /** A connection closes, for good. */
    method Close(conn: nat)
      requires Valid() && conn < |open|
      modifies this
      ensures Valid() && model == Apply(old(model), Step.Close(conn))
      ensures peers == old(peers)
    {
      StepInv(model, Step.Close(conn));
      model := Apply(model, Step.Close(conn));
      open := open[conn := false];
    }

    method Tick(time: nat)
      requires Valid() && CanTick(model, time)
      modifies this
      ensures Valid() && model == old(model).(now := time) && now == time
    {
      StepInv(model, Step.Tick(time));
      model := model.(now := time);
      now := time;
    }
  }

  lemma StartExchangeEnters(s: State, call: Call, conn: nat, reused: bool)
    ensures !StartExchange(s, call, conn, reused).phase.Dialing?
  {}
}
