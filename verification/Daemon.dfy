/**
 The daemon's semaphores and in-flight requests as an object. Each method is the
 code around one acquire or release, proved to be one step of `Admission`.
 */
module Daemon {
  import opened Prelude
  import opened Admission

  class Daemon {
    const max: nat
    var connectionSlots: nat
    var localSlots: nat
    var peerPermits: nat
    var localPermits: nat
    /** Per connection task: the requests received on it and not yet done. */
    var inflight: map<nat, set<StreamId>>
    ghost var model: State

    ghost predicate Valid()
      reads this
    {
      && Inv(model)
      && model.max == max
      && model.connSlots == connectionSlots
      && model.localSlots == localSlots
      && model.peerPermits == peerPermits
      && model.localPermits == localPermits
      && inflight.Keys == model.tasks.Keys
      && forall task :: task in inflight ==> inflight[task] == ActiveOn(model, task)
    }

    constructor (max: nat)
      ensures Valid() && model == Init(max)
    {
      this.max := max;
      connectionSlots, localSlots := MAX_CONNECTIONS, 2 * max;
      peerPermits, localPermits := max, max;
      inflight := map[];
      model := Init(max);
      new;
      InitInv(max);
    }

    /** An incoming handshake takes a connection slot, or is refused. */
    method AdmitPeer(task: nat) returns (admitted: bool)
      requires Valid() && Enabled(model, Incoming(task))
      modifies this
      ensures Valid() && model == Apply(old(model), Incoming(task))
      ensures admitted <==> |old(model).tasks.Keys| < MAX_CONNECTIONS
      ensures admitted ==> TaskIs(model, task, Handshaking)
      ensures !admitted ==> model == old(model)
    {
      StepInv(model, Incoming(task));
      model := Apply(model, Incoming(task));
      admitted := connectionSlots > 0;
      if admitted {
        connectionSlots := connectionSlots - 1;
        inflight := inflight[task := {}];
        assert ActiveOn(model, task) == {};
      }
    }

    /** The handshake failed, timed out, or came from a stranger: the slot is free again. */
    method EndHandshake(task: nat)
      requires Valid() && Enabled(model, HandshakeEnded(task))
      modifies this
      ensures Valid() && model == Apply(old(model), HandshakeEnded(task))
      ensures |model.tasks.Keys| < MAX_CONNECTIONS
    {
      StepInv(model, HandshakeEnded(task));
      model := Apply(model, HandshakeEnded(task));
      inflight := map other | other in inflight && other != task :: inflight[other];
      connectionSlots := connectionSlots + 1;
    }

    /** The peer is listed: its connection is served from now on. */
    ghost method Serve(task: nat)
      requires Valid() && Enabled(model, Step.Serve(task))
      modifies this`model
      ensures Valid() && model == Apply(old(model), Step.Serve(task))
      ensures TaskIs(model, task, Serving)
    {
      StepInv(model, Step.Serve(task));
      assert forall other :: other in inflight ==>
        ActiveOn(Apply(model, Step.Serve(task)), other) == ActiveOn(model, other);
      model := Apply(model, Step.Serve(task));
    }

    /** `accept_bi` failed: the connection is closed and what is in flight drains. */
    ghost method PeerClosed(task: nat)
      requires Valid() && Enabled(model, Step.PeerClosed(task))
      modifies this`model
      ensures Valid() && model == Apply(old(model), Step.PeerClosed(task))
      ensures TaskIs(model, task, Draining) && inflight == old(inflight)
    {
      StepInv(model, Step.PeerClosed(task));
      assert forall other :: other in inflight ==>
        ActiveOn(Apply(model, Step.PeerClosed(task)), other) == ActiveOn(model, other);
      model := Apply(model, Step.PeerClosed(task));
    }

    /** `accept_bi` yielded a stream: its request joins the connection's in-flight set. */
    method Push(task: nat, id: StreamId)
      requires Valid() && Enabled(model, Accept(task, id))
      modifies this
      ensures Valid() && model == Apply(old(model), Accept(task, id))
      ensures inflight[task] == old(inflight)[task] + {id}
    {
      ghost var before := model;
      StepInv(model, Accept(task, id));
      model := Apply(model, Accept(task, id));
      inflight := inflight[task := inflight[task] + {id}];
      forall other | other in inflight ensures inflight[other] == ActiveOn(model, other) {
        assert ActiveOn(model, other) == if other == task then ActiveOn(before, other) + {id} else ActiveOn(before, other);
      }
    }

    /** A request was read: run it if the peer pool has a permit, else answer busy. */
    method TryRunPeer(id: StreamId) returns (busy: bool)
      requires Valid() && Enabled(model, Read(id))
      modifies this
      ensures Valid() && model == Apply(old(model), Read(id))
      ensures busy <==> |RunningStreams(old(model))| == max
      ensures StreamIs(model, id, if busy then Replying(true) else Running)
    {
      StepInv(model, Read(id));
      assert forall task :: task in inflight ==> ActiveOn(Apply(model, Read(id)), task) == ActiveOn(model, task);
      model := Apply(model, Read(id));
      busy := peerPermits == 0;
      if !busy {
        peerPermits := peerPermits - 1;
      }
    }

    /** The dispatch returned: the permit goes back before the reply is written. */
    method ReleasePeer(id: StreamId)
      requires Valid() && Enabled(model, Finish(id))
      modifies this
      ensures Valid() && model == Apply(old(model), Finish(id))
      ensures |RunningStreams(model)| < max
    {
      StepInv(model, Finish(id));
      assert forall task :: task in inflight ==> ActiveOn(Apply(model, Finish(id)), task) == ActiveOn(model, task);
      model := Apply(model, Finish(id));
      peerPermits := peerPermits + 1;
    }

    /** A request is over, unread or with its reply sent or lost: it leaves the in-flight set. */
    method Pop(ghost step: Step, task: nat, id: StreamId)
      requires Valid() && Enabled(model, step) && (step.ReadFailed? || step.Reply?) && step.id == id
      requires model.streams[id].task == task
      modifies this
      ensures Valid() && model == Apply(old(model), step)
      ensures task in inflight && inflight[task] == old(inflight)[task] - {id}
    {
      assert StreamOk(model, id);
      StepInv(model, step);
      ghost var before := model;
      model := Apply(model, step);
      inflight := inflight[task := inflight[task] - {id}];
      forall other | other in inflight ensures inflight[other] == ActiveOn(model, other) {
        assert ActiveOn(model, other) == if other == task then ActiveOn(before, other) - {id} else ActiveOn(before, other);
      }
    }

    /** After the peer closed, the task ends once nothing is in flight; only then the slot is free. */
    method TryEndDrained(task: nat) returns (ended: bool)
      requires Valid() && model.up && TaskIs(model, task, Draining)
      modifies this
      ensures Valid()
      ensures ended <==> forall id :: id in old(model).streams && old(model).streams[id].task == task ==>
                           old(model).streams[id].phase.Ended?
      ensures model == if ended then Apply(old(model), TaskEnds(task)) else old(model)
    {
      ended := inflight[task] == {};
      if ended {
        forall id | id in model.streams && model.streams[id].task == task ensures model.streams[id].phase.Ended? {
          assert id !in ActiveOn(model, task);
        }
        StepInv(model, TaskEnds(task));
        model := Apply(model, TaskEnds(task));
        inflight := map other | other in inflight && other != task :: inflight[other];
        connectionSlots := connectionSlots + 1;
      } else {
        ghost var id :| id in inflight[task];
        assert id in ActiveOn(model, task);
      }
    }

    /** A local connection takes a local slot, or is dropped unread. */
    method AdmitLocal(l: nat) returns (admitted: bool)
      requires Valid() && Enabled(model, LocalConnect(l))
      modifies this
      ensures Valid() && model == Apply(old(model), LocalConnect(l))
      ensures admitted <==> |OpenLocals(old(model))| < 2 * max
    {
      StepInv(model, LocalConnect(l));
      model := Apply(model, LocalConnect(l));
      admitted := localSlots > 0;
      if admitted {
        localSlots := localSlots - 1;
      }
    }

    /** A local request was read: it competes for local permits only. */
    method TryRunLocal(l: nat) returns (busy: bool)
      requires Valid() && Enabled(model, LocalRead(l))
      modifies this
      ensures Valid() && model == Apply(old(model), LocalRead(l))
      ensures busy <==> |RunningLocals(old(model))| == max
      ensures LocalIs(model, l, if busy then Replying(true) else Running)
    {
      StepInv(model, LocalRead(l));
      model := Apply(model, LocalRead(l));
      busy := localPermits == 0;
      if !busy {
        localPermits := localPermits - 1;
      }
    }

    method ReleaseLocal(l: nat)
      requires Valid() && Enabled(model, LocalFinish(l))
      modifies this
      ensures Valid() && model == Apply(old(model), LocalFinish(l))
      ensures |RunningLocals(model)| < max
    {
      StepInv(model, LocalFinish(l));
      model := Apply(model, LocalFinish(l));
      localPermits := localPermits + 1;
    }

    /** The local connection is over and its slot free. */
    method EndLocal(ghost step: Step)
      requires Valid() && Enabled(model, step) && (step.LocalReadFailed? || step.LocalReply?)
      modifies this
      ensures Valid() && model == Apply(old(model), step)
      ensures |OpenLocals(model)| < 2 * max
    {
      StepInv(model, step);
      model := Apply(model, step);
      localSlots := localSlots + 1;
    }

    /** The daemon stops: every task is aborted, which gives back all it held. */
    method Stop()
      requires Valid() && model.up
      modifies this
      ensures Valid() && model == Apply(old(model), Shutdown)
      ensures connectionSlots == MAX_CONNECTIONS && localSlots == 2 * max
      ensures peerPermits == max && localPermits == max && inflight == map[]
    {
      StepInv(model, Shutdown);
      model := Apply(model, Shutdown);
      connectionSlots, localSlots := MAX_CONNECTIONS, 2 * max;
      peerPermits, localPermits := max, max;
      inflight := map[];
    }
  }

  /** The requests of a connection task that are not over. */
  ghost function ActiveOn(s: State, task: nat): set<StreamId> {
    set id | id in s.streams && s.streams[id].task == task && s.streams[id].phase.Active()
  }
}
