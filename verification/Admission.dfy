/**
 The daemon's admission of work as a step system: connection slots, local slots,
 and one pool of request permits for peers and one for the local CLI. Requests on
 one connection run concurrently; a closed connection drains before it ends.
 */
module Admission {
  import opened Prelude

  const MAX_CONNECTIONS: nat := 64

  /** A stream is named by the sender and its position among the sender's streams. */
  datatype StreamId = StreamId(origin: nat, index: nat)

  datatype Source = FromPeer(id: StreamId) | FromLocal(l: nat)

  datatype TaskPhase = Handshaking | Serving | Draining

  datatype End =
    | Unread                     // no request came
    | Answered(busy: bool)
    | ReplyLost(busy: bool)
    | Aborted(ran: bool)         // the daemon stopped

  datatype Phase =
    | Reading
    | Running                    // holds a permit
    | Replying(busy: bool)
    | Ended(end: End)
  {
    predicate Active() {
      !Ended?
    }

    /** The request was dispatched at some point. */
    predicate Ran() {
      match this
      case Reading => false
      case Running => true
      case Replying(busy) => !busy
      case Ended(Unread) => false
      case Ended(Answered(busy)) => !busy
      case Ended(ReplyLost(busy)) => !busy
      case Ended(Aborted(ran)) => ran
    }

    /** A reply was made, `busy` or not, and may have reached the client. */
    predicate Answers(busy: bool) {
      match this
      case Replying(b) => b == busy
      case Ended(Answered(b)) => b == busy
      case Ended(ReplyLost(b)) => b == busy
      case Ended(Aborted(ran)) => ran == !busy
      case _ => false
    }

    function Abort(): Phase {
      if Ended? then this else Ended(Aborted(Ran()))
    }
  }

  datatype Request = Request(task: nat, phase: Phase)

  datatype State = State(
    up: bool,
    max: nat,
    connSlots: nat,
    localSlots: nat,
    peerPermits: nat,
    localPermits: nat,
    tasks: map<nat, TaskPhase>,
    streams: map<StreamId, Request>,
    locals: map<nat, Phase>,
    dispatched: seq<Source>)

  datatype Step =
    | Incoming(task: nat)
    | HandshakeEnded(task: nat)          // failed, timed out, or not a listed peer
    | Serve(task: nat)
    | Accept(task: nat, id: StreamId)
    | PeerClosed(task: nat)
    | TaskEnds(task: nat)
    | Read(id: StreamId)
    | ReadFailed(id: StreamId)
    | Finish(id: StreamId)
    | Reply(id: StreamId, sent: bool)
    | LocalConnect(l: nat)
    | LocalRead(l: nat)
    | LocalReadFailed(l: nat)
    | LocalFinish(l: nat)
    | LocalReply(l: nat, sent: bool)
    | Shutdown

  predicate PeerStep(step: Step) {
    || step.Incoming? || step.HandshakeEnded? || step.Serve? || step.Accept? || step.PeerClosed? || step.TaskEnds?
    || step.Read? || step.ReadFailed? || step.Finish? || step.Reply?
  }

  function Init(max: nat): State {
    State(true, max, MAX_CONNECTIONS, 2 * max, max, max, map[], map[], map[], [])
  }

  predicate TaskIs(s: State, task: nat, phase: TaskPhase) {
    task in s.tasks && s.tasks[task] == phase
  }

  predicate StreamIs(s: State, id: StreamId, phase: Phase) {
    id in s.streams && s.streams[id].phase == phase
  }

  predicate LocalIs(s: State, l: nat, phase: Phase) {
    l in s.locals && s.locals[l] == phase
  }

  predicate Enabled(s: State, step: Step) {
    s.up &&
    match step
    case Incoming(task) => task !in s.tasks && forall id :: id in s.streams ==> s.streams[id].task != task
    case HandshakeEnded(task) => TaskIs(s, task, Handshaking)
    case Serve(task) => TaskIs(s, task, Handshaking)
    case Accept(task, id) => TaskIs(s, task, Serving) && id !in s.streams
    case PeerClosed(task) => TaskIs(s, task, Serving)
    case TaskEnds(task) =>
      TaskIs(s, task, Draining) && forall id :: id in s.streams && s.streams[id].task == task ==> s.streams[id].phase.Ended?
    case Read(id) => StreamIs(s, id, Reading)
    case ReadFailed(id) => StreamIs(s, id, Reading)
    case Finish(id) => StreamIs(s, id, Running)
    case Reply(id, _) => id in s.streams && s.streams[id].phase.Replying?
    case LocalConnect(l) => l !in s.locals
    case LocalRead(l) => LocalIs(s, l, Reading)
    case LocalReadFailed(l) => LocalIs(s, l, Reading)
    case LocalFinish(l) => LocalIs(s, l, Running)
    case LocalReply(l, _) => l in s.locals && s.locals[l].Replying?
    case Shutdown => true
  }

  function WithStream(s: State, id: StreamId, phase: Phase): map<StreamId, Request>
    requires id in s.streams
  {
    s.streams[id := s.streams[id].(phase := phase)]
  }

  function Without(tasks: map<nat, TaskPhase>, task: nat): map<nat, TaskPhase> {
    map other | other in tasks && other != task :: tasks[other]
  }

  function ReplyEnd(busy: bool, sent: bool): Phase {
    Ended(if sent then Answered(busy) else ReplyLost(busy))
  }

  /** A read request runs if its own pool has a permit; otherwise it gets a busy reply. */
  function DoRead(s: State, id: StreamId): State
    requires StreamIs(s, id, Reading)
  {
    if s.peerPermits > 0 then
      s.(peerPermits := s.peerPermits - 1,
         streams := WithStream(s, id, Running),
         dispatched := s.dispatched + [FromPeer(id)])
    else
      s.(streams := WithStream(s, id, Replying(true)))
  }

  function DoLocalRead(s: State, l: nat): State
    requires LocalIs(s, l, Reading)
  {
    if s.localPermits > 0 then
      s.(localPermits := s.localPermits - 1,
         locals := s.locals[l := Running],
         dispatched := s.dispatched + [FromLocal(l)])
    else
      s.(locals := s.locals[l := Replying(true)])
  }

  function Apply(s: State, step: Step): State
    requires Enabled(s, step)
  {
    match step
    case Incoming(task) =>
      if s.connSlots > 0 then s.(connSlots := s.connSlots - 1, tasks := s.tasks[task := Handshaking])
      else s
    case HandshakeEnded(task) => s.(connSlots := s.connSlots + 1, tasks := Without(s.tasks, task))
    case Serve(task) => s.(tasks := s.tasks[task := Serving])
    case Accept(task, id) => s.(streams := s.streams[id := Request(task, Reading)])
    case PeerClosed(task) => s.(tasks := s.tasks[task := Draining])
    case TaskEnds(task) => s.(connSlots := s.connSlots + 1, tasks := Without(s.tasks, task))
    case Read(id) => DoRead(s, id)
    case ReadFailed(id) => s.(streams := WithStream(s, id, Ended(Unread)))
    case Finish(id) =>
      s.(peerPermits := s.peerPermits + 1, streams := WithStream(s, id, Replying(false)))
    case Reply(id, sent) =>
      s.(streams := WithStream(s, id, ReplyEnd(s.streams[id].phase.busy, sent)))
    case LocalConnect(l) =>
      if s.localSlots > 0 then s.(localSlots := s.localSlots - 1, locals := s.locals[l := Reading])
      else s.(locals := s.locals[l := Ended(Unread)])
    case LocalRead(l) => DoLocalRead(s, l)
    case LocalReadFailed(l) => s.(localSlots := s.localSlots + 1, locals := s.locals[l := Ended(Unread)])
    case LocalFinish(l) => s.(localPermits := s.localPermits + 1, locals := s.locals[l := Replying(false)])
    case LocalReply(l, sent) =>
      s.(localSlots := s.localSlots + 1, locals := s.locals[l := ReplyEnd(s.locals[l].busy, sent)])
    case Shutdown =>
      State(false, s.max, MAX_CONNECTIONS, 2 * s.max, s.max, s.max, map[],
            map id | id in s.streams :: s.streams[id].(phase := s.streams[id].phase.Abort()),
            map l | l in s.locals :: s.locals[l].Abort(),
            s.dispatched)
  }

  function Next(s: State, step: Step): State {
    if Enabled(s, step) then Apply(s, step) else s
  }

  function Run(s: State, steps: seq<Step>): State {
    if steps == [] then s else Next(Run(s, steps[..|steps| - 1]), steps[|steps| - 1])
  }

  // ---------------------------------------------------------------- what is held

  function RunningStreams(s: State): set<StreamId> {
    set id | id in s.streams && s.streams[id].phase.Running?
  }

  function RunningLocals(s: State): set<nat> {
    set l | l in s.locals && s.locals[l].Running?
  }

  function OpenLocals(s: State): set<nat> {
    set l | l in s.locals && s.locals[l].Active()
  }

  /** Free plus held is the limit, for each of the four resources. */
  ghost predicate Conserved(s: State) {
    && s.connSlots + |s.tasks.Keys| == MAX_CONNECTIONS
    && s.peerPermits + |RunningStreams(s)| == s.max
    && s.localSlots + |OpenLocals(s)| == 2 * s.max
    && s.localPermits + |RunningLocals(s)| == s.max
  }

  function Dispatches(dispatched: seq<Source>, source: Source): nat {
    if dispatched == [] then 0
    else Dispatches(dispatched[..|dispatched| - 1], source) +
         if dispatched[|dispatched| - 1] == source then 1 else 0
  }

  /** A live request belongs to a live connection; it was dispatched once if it ran, else never. */
  ghost predicate StreamOk(s: State, id: StreamId) {
    && (id in s.streams ==>
          && (s.streams[id].phase.Active() ==>
                s.streams[id].task in s.tasks && !s.tasks[s.streams[id].task].Handshaking?)
          && (s.streams[id].phase.Ended? && s.streams[id].phase.end.Aborted? ==> !s.up))
    && Dispatches(s.dispatched, FromPeer(id)) == if id in s.streams && s.streams[id].phase.Ran() then 1 else 0
  }

  ghost predicate LocalOk(s: State, l: nat) {
    && (l in s.locals && s.locals[l].Ended? && s.locals[l].end.Aborted? ==> !s.up)
    && Dispatches(s.dispatched, FromLocal(l)) == if l in s.locals && s.locals[l].Ran() then 1 else 0
  }

  ghost predicate Inv(s: State) {
    && Conserved(s)
    && (forall id {:trigger StreamOk(s, id)} :: StreamOk(s, id))
    && (forall l {:trigger LocalOk(s, l)} :: LocalOk(s, l))
  }

  // ---------------------------------------------------------------- every step keeps it

  lemma InitInv(max: nat)
    ensures Inv(Init(max))
  {}

  lemma DispatchesSnoc(dispatched: seq<Source>, added: Source, source: Source)
    ensures Dispatches(dispatched + [added], source) ==
            Dispatches(dispatched, source) + if added == source then 1 else 0
  {
    assert (dispatched + [added])[..|dispatched|] == dispatched;
  }

  /** Only reading a request can dispatch it. */
  lemma ReadKeepsStream(s: State, read: StreamId, id: StreamId)
    requires StreamIs(s, read, Reading) && StreamOk(s, id)
    ensures StreamOk(DoRead(s, read), id)
  {
    if s.peerPermits > 0 {
      DispatchesSnoc(s.dispatched, FromPeer(read), FromPeer(id));
    }
  }

  lemma LocalReadKeepsStream(s: State, read: nat, id: StreamId)
    requires LocalIs(s, read, Reading) && StreamOk(s, id)
    ensures StreamOk(DoLocalRead(s, read), id)
  {
    if s.localPermits > 0 {
      DispatchesSnoc(s.dispatched, FromLocal(read), FromPeer(id));
    }
  }

  lemma ReadKeepsLocal(s: State, read: StreamId, l: nat)
    requires StreamIs(s, read, Reading) && LocalOk(s, l)
    ensures LocalOk(DoRead(s, read), l)
  {
    if s.peerPermits > 0 {
      DispatchesSnoc(s.dispatched, FromPeer(read), FromLocal(l));
    }
  }

  lemma LocalReadKeepsLocal(s: State, read: nat, l: nat)
    requires LocalIs(s, read, Reading) && LocalOk(s, l)
    ensures LocalOk(DoLocalRead(s, read), l)
  {
    if s.localPermits > 0 {
      DispatchesSnoc(s.dispatched, FromLocal(read), FromLocal(l));
    }
  }

  lemma QuietStep(s: State, step: Step)
    requires Enabled(s, step) && !step.Read? && !step.LocalRead?
    ensures Apply(s, step).dispatched == s.dispatched
  {}

  lemma StreamStep(s: State, step: Step, id: StreamId)
    requires Enabled(s, step) && StreamOk(s, id)
    ensures StreamOk(Apply(s, step), id)
  {
    if step.Read? {
      ReadKeepsStream(s, step.id, id);
    } else if step.LocalRead? {
      LocalReadKeepsStream(s, step.l, id);
    } else {
      QuietStep(s, step);
    }
  }

  lemma LocalStep(s: State, step: Step, l: nat)
    requires Enabled(s, step) && LocalOk(s, l)
    ensures LocalOk(Apply(s, step), l)
  {
    if step.Read? {
      ReadKeepsLocal(s, step.id, l);
    } else if step.LocalRead? {
      LocalReadKeepsLocal(s, step.l, l);
    } else {
      QuietStep(s, step);
    }
  }

  /** A resource and its holders before and after a step: one more, one less, or the same. */
  ghost predicate Traded<T(!new)>(free: int, held: set<T>, freeAfter: int, heldAfter: set<T>) {
    || (freeAfter == free && heldAfter == held)
    || (freeAfter == free - 1 && exists x {:trigger x in held} :: x !in held && heldAfter == held + {x})
    || (freeAfter == free + 1 && exists x {:trigger x in held} :: x in held && heldAfter == held - {x})
  }

  lemma TradeConserves<T(!new)>(free: int, held: set<T>, freeAfter: int, heldAfter: set<T>)
    requires Traded(free, held, freeAfter, heldAfter)
    ensures freeAfter + |heldAfter| == free + |held|
  {}

  lemma TasksStep(s: State, step: Step)
    requires Enabled(s, step) && !step.Shutdown?
    ensures Traded(s.connSlots, s.tasks.Keys, Apply(s, step).connSlots, Apply(s, step).tasks.Keys)
  {
    var t := Apply(s, step);
    if step.Incoming? && s.connSlots > 0 {
      assert step.task !in s.tasks.Keys && t.tasks.Keys == s.tasks.Keys + {step.task};
    } else if step.HandshakeEnded? || step.TaskEnds? {
      assert step.task in s.tasks.Keys && t.tasks.Keys == s.tasks.Keys - {step.task};
    } else {
      assert t.tasks.Keys == s.tasks.Keys;
    }
  }

  lemma StreamsStep(s: State, step: Step)
    requires Enabled(s, step) && !step.Shutdown?
    ensures Traded(s.peerPermits, RunningStreams(s), Apply(s, step).peerPermits, RunningStreams(Apply(s, step)))
  {
    var t := Apply(s, step);
    if step.Read? && s.peerPermits > 0 {
      assert step.id !in RunningStreams(s) && RunningStreams(t) == RunningStreams(s) + {step.id};
    } else if step.Finish? {
      assert step.id in RunningStreams(s) && RunningStreams(t) == RunningStreams(s) - {step.id};
    } else {
      assert RunningStreams(t) == RunningStreams(s);
    }
  }

  lemma OpenLocalsStep(s: State, step: Step)
    requires Enabled(s, step) && !step.Shutdown?
    ensures Traded(s.localSlots, OpenLocals(s), Apply(s, step).localSlots, OpenLocals(Apply(s, step)))
  {
    var t := Apply(s, step);
    if step.LocalConnect? && s.localSlots > 0 {
      assert step.l !in OpenLocals(s) && OpenLocals(t) == OpenLocals(s) + {step.l};
    } else if step.LocalReadFailed? || step.LocalReply? {
      assert step.l in OpenLocals(s) && OpenLocals(t) == OpenLocals(s) - {step.l};
    } else {
      assert OpenLocals(t) == OpenLocals(s);
    }
  }

  lemma RunningLocalsStep(s: State, step: Step)
    requires Enabled(s, step) && !step.Shutdown?
    ensures Traded(s.localPermits, RunningLocals(s), Apply(s, step).localPermits, RunningLocals(Apply(s, step)))
  {
    var t := Apply(s, step);
    if step.LocalRead? && s.localPermits > 0 {
      assert step.l !in RunningLocals(s) && RunningLocals(t) == RunningLocals(s) + {step.l};
    } else if step.LocalFinish? {
      assert step.l in RunningLocals(s) && RunningLocals(t) == RunningLocals(s) - {step.l};
    } else {
      assert RunningLocals(t) == RunningLocals(s);
    }
  }

  lemma ShutdownConserves(s: State)
    requires Enabled(s, Shutdown)
    ensures Conserved(Apply(s, Shutdown))
  {
    var t := Apply(s, Shutdown);
    assert t.tasks.Keys == {} && RunningStreams(t) == {} && OpenLocals(t) == {} && RunningLocals(t) == {};
  }

  lemma ConservedStep(s: State, step: Step)
    requires Conserved(s) && Enabled(s, step)
    ensures Conserved(Apply(s, step))
  {
    if step.Shutdown? {
      ShutdownConserves(s);
    } else {
      var t := Apply(s, step);
      assert t.max == s.max;
      assert t.connSlots + |t.tasks.Keys| == MAX_CONNECTIONS by {
        TasksStep(s, step);
        TradeConserves(s.connSlots, s.tasks.Keys, t.connSlots, t.tasks.Keys);
      }
      assert t.peerPermits + |RunningStreams(t)| == s.max by {
        StreamsStep(s, step);
        TradeConserves(s.peerPermits, RunningStreams(s), t.peerPermits, RunningStreams(t));
      }
      assert t.localSlots + |OpenLocals(t)| == 2 * s.max by {
        OpenLocalsStep(s, step);
        TradeConserves(s.localSlots, OpenLocals(s), t.localSlots, OpenLocals(t));
      }
      assert t.localPermits + |RunningLocals(t)| == s.max by {
        RunningLocalsStep(s, step);
        TradeConserves(s.localPermits, RunningLocals(s), t.localPermits, RunningLocals(t));
      }
    }
  }

  lemma StepInv(s: State, step: Step)
    requires Inv(s)
    ensures Inv(Next(s, step))
  {
    if Enabled(s, step) {
      var t := Apply(s, step);
      ConservedStep(s, step);
      forall id ensures StreamOk(t, id) {
        assert StreamOk(s, id);
        StreamStep(s, step, id);
      }
      forall l ensures LocalOk(t, l) {
        assert LocalOk(s, l);
        LocalStep(s, step, l);
      }
    }
  }

  lemma {:induction false} RunInv(s: State, steps: seq<Step>)
    requires Inv(s)
    ensures Inv(Run(s, steps))
  {
    if steps != [] {
      RunInv(s, steps[..|steps| - 1]);
      StepInv(Run(s, steps[..|steps| - 1]), steps[|steps| - 1]);
    }
  }

  // ---------------------------------------------------------------- theorems

  ghost predicate Reachable(s: State) {
    exists max: nat, steps: seq<Step> {:trigger Run(Init(max), steps)} :: s == Run(Init(max), steps)
  }

  lemma ReachableInv(s: State)
    requires Reachable(s)
    ensures Inv(s)
  {
    var max: nat, steps: seq<Step> :| s == Run(Init(max), steps);
    InitInv(max);
    RunInv(Init(max), steps);
  }

  /** In every reachable state nothing leaked: free plus held is the limit, four times over. */
  lemma Conservation(s: State)
    requires Reachable(s)
    ensures s.connSlots + |s.tasks.Keys| == 64
    ensures s.peerPermits + |RunningStreams(s)| == s.max
    ensures s.localSlots + |OpenLocals(s)| == 2 * s.max
    ensures s.localPermits + |RunningLocals(s)| == s.max
  {
    ReachableInv(s);
  }

  /** A request is refused exactly when its own pool is full of running requests, and then it never runs. */
  lemma BusyMeansSaturatedAndNotRun(s: State, id: StreamId)
    requires Reachable(s) && s.up && StreamIs(s, id, Reading)
    ensures DoRead(s, id).streams[id].phase == (if |RunningStreams(s)| == s.max then Replying(true) else Running)
    ensures Dispatches(DoRead(s, id).dispatched, FromPeer(id)) == if |RunningStreams(s)| == s.max then 0 else 1
  {
    ReachableInv(s);
    assert StreamOk(s, id);
    DispatchesSnoc(s.dispatched, FromPeer(id), FromPeer(id));
  }

  lemma LocalBusyMeansSaturatedAndNotRun(s: State, l: nat)
    requires Reachable(s) && s.up && LocalIs(s, l, Reading)
    ensures DoLocalRead(s, l).locals[l] == (if |RunningLocals(s)| == s.max then Replying(true) else Running)
    ensures Dispatches(DoLocalRead(s, l).dispatched, FromLocal(l)) == if |RunningLocals(s)| == s.max then 0 else 1
  {
    ReachableInv(s);
    assert LocalOk(s, l);
    DispatchesSnoc(s.dispatched, FromLocal(l), FromLocal(l));
  }

  /** Every request is dispatched at most once, and one answered busy was not dispatched at all. */
  lemma DispatchedAtMostOnce(s: State, id: StreamId)
    requires Reachable(s)
    ensures Dispatches(s.dispatched, FromPeer(id)) <= 1
    ensures id in s.streams && s.streams[id].phase in {Replying(true), Ended(Answered(true)), Ended(ReplyLost(true))} ==>
      Dispatches(s.dispatched, FromPeer(id)) == 0
  {
    ReachableInv(s);
    assert StreamOk(s, id);
  }

  /**
   While the daemon is up, a connection's slot is released only after every request
   received on it has been refused or run to completion; none is cut off.
   */
  lemma ReleasedMeansServed(s: State, id: StreamId)
    requires Reachable(s) && s.up && id in s.streams && s.streams[id].task !in s.tasks
    ensures s.streams[id].phase in {Ended(Unread), Ended(Answered(true)), Ended(Answered(false)),
                                    Ended(ReplyLost(true)), Ended(ReplyLost(false))}
  {
    ReachableInv(s);
    assert StreamOk(s, id);
  }

  // ---------------------------------------------------------------- draining

  /** Every request received on the connection is over. */
  predicate AllOver(s: State, task: nat) {
    forall id :: id in s.streams && s.streams[id].task == task ==> s.streams[id].phase.Ended?
  }

  /** The connection drains or is gone, and has no requests but those of `before`. */
  ghost predicate Closing(s: State, task: nat, before: State) {
    && (task in s.tasks ==> s.tasks[task] == Draining)
    && (forall id :: id in s.streams && s.streams[id].task == task ==> id in before.streams)
  }

  lemma ClosingStep(s: State, step: Step, task: nat, before: State)
    requires Enabled(s, step) && step != Incoming(task) && Closing(s, task, before)
    ensures Closing(Apply(s, step), task, before)
  {}

  /**
   Once its peer has closed, a connection accepts no further request in any run. While
   the daemon is up it drains; as soon as all its requests are over, and not before, it
   can end, and that frees exactly its own slot.
   */
  lemma {:induction false} ClosedConnectionDrains(s: State, task: nat, more: seq<Step>)
    requires Inv(s) && Enabled(s, PeerClosed(task)) && Incoming(task) !in more
    ensures var t := Run(Next(s, PeerClosed(task)), more);
            && Closing(t, task, s)
            && (t.up && task in t.tasks ==>
                  && t.tasks[task] == Draining
                  && (Enabled(t, TaskEnds(task)) <==> AllOver(t, task))
                  && (AllOver(t, task) ==>
                        var u := Next(t, TaskEnds(task));
                        && task !in u.tasks && u.tasks == t.tasks - {task}
                        && u == t.(connSlots := t.connSlots + 1, tasks := u.tasks)))
  {
    if more != [] {
      var front, last := more[..|more| - 1], more[|more| - 1];
      ClosedConnectionDrains(s, task, front);
      var t := Run(Next(s, PeerClosed(task)), front);
      if Enabled(t, last) {
        ClosingStep(t, last, task, s);
      }
    }
  }

  // ---------------------------------------------------------------- the life of a request

  /** What can become of a request in one step, and by which. */
  ghost predicate Lives(a: Phase, b: Phase, read: bool, unread: bool, finish: bool, sent: bool, lost: bool, stop: bool) {
    match a
    case Reading =>
      if read then b == Running || b == Replying(true)
      else if unread then b == Ended(Unread)
      else b == if stop then Ended(Aborted(false)) else a
    case Running => b == if finish then Replying(false) else if stop then Ended(Aborted(true)) else a
    case Replying(busy) =>
      b == if sent then Ended(Answered(busy)) else if lost then Ended(ReplyLost(busy))
           else if stop then Ended(Aborted(!busy)) else a
    case Ended(_) => b == a
  }

  /** A request is read or not, runs or is refused, and is answered or not, in this order; a refusal stays one. */
  lemma StreamLife(s: State, step: Step, id: StreamId)
    requires Enabled(s, step)
    ensures id in s.streams ==>
      && id in Apply(s, step).streams && Apply(s, step).streams[id].task == s.streams[id].task
      && Lives(s.streams[id].phase, Apply(s, step).streams[id].phase,
               step == Read(id), step == ReadFailed(id), step == Finish(id),
               step == Reply(id, true), step == Reply(id, false), step == Shutdown)
    ensures id !in s.streams && id in Apply(s, step).streams ==>
      step.Accept? && step.id == id && Apply(s, step).streams[id] == Request(step.task, Reading)
  {}

  lemma LocalLife(s: State, step: Step, l: nat)
    requires Enabled(s, step)
    ensures l in s.locals ==>
      && l in Apply(s, step).locals
      && Lives(s.locals[l], Apply(s, step).locals[l],
               step == LocalRead(l), step == LocalReadFailed(l), step == LocalFinish(l),
               step == LocalReply(l, true), step == LocalReply(l, false), step == Shutdown)
    ensures l !in s.locals && l in Apply(s, step).locals ==>
      step == LocalConnect(l) && Apply(s, step).locals[l] == if s.localSlots > 0 then Reading else Ended(Unread)
  {}

  /** While the daemon is up no request is stuck: what it can do next is decided by its phase alone. */
  lemma RequestsCanProceed(s: State, id: StreamId, sent: bool)
    requires s.up && id in s.streams
    ensures Enabled(s, Read(id)) <==> s.streams[id].phase.Reading?
    ensures Enabled(s, ReadFailed(id)) <==> s.streams[id].phase.Reading?
    ensures Enabled(s, Finish(id)) <==> s.streams[id].phase.Running?
    ensures Enabled(s, Reply(id, sent)) <==> s.streams[id].phase.Replying?
  {}

  lemma LocalsCanProceed(s: State, l: nat, sent: bool)
    requires s.up && l in s.locals
    ensures Enabled(s, LocalRead(l)) <==> s.locals[l].Reading?
    ensures Enabled(s, LocalReadFailed(l)) <==> s.locals[l].Reading?
    ensures Enabled(s, LocalFinish(l)) <==> s.locals[l].Running?
    ensures Enabled(s, LocalReply(l, sent)) <==> s.locals[l].Replying?
  {}

  /** A connection can be served or turned away while it shakes hands, and takes requests or closes while served. */
  lemma ConnectionsCanProceed(s: State, task: nat, id: StreamId)
    requires s.up && task in s.tasks
    ensures Enabled(s, Serve(task)) <==> s.tasks[task] == Handshaking
    ensures Enabled(s, HandshakeEnded(task)) <==> s.tasks[task] == Handshaking
    ensures Enabled(s, Accept(task, id)) <==> s.tasks[task] == Serving && id !in s.streams
    ensures Enabled(s, PeerClosed(task)) <==> s.tasks[task] == Serving
    ensures s.tasks[task] == Handshaking ==> Apply(s, Serve(task)).tasks == s.tasks[task := Serving]
    ensures s.tasks[task] == Serving ==> Apply(s, PeerClosed(task)).tasks == s.tasks[task := Draining]
  {}

  // ---------------------------------------------------------------- peers cannot affect local requests

  /** All that decides how local requests fare. */
  datatype LocalView = LocalView(up: bool, max: nat, slots: nat, permits: nat, locals: map<nat, Phase>)

  function ViewOf(s: State): LocalView {
    LocalView(s.up, s.max, s.localSlots, s.localPermits, s.locals)
  }

  function WithoutPeers(steps: seq<Step>): seq<Step> {
    if steps == [] then []
    else
      var rest := WithoutPeers(steps[..|steps| - 1]);
      if PeerStep(steps[|steps| - 1]) then rest else rest + [steps[|steps| - 1]]
  }

  lemma LocalStepSeesOnlyView(s: State, t: State, step: Step)
    requires ViewOf(s) == ViewOf(t) && !PeerStep(step)
    ensures ViewOf(Next(s, step)) == ViewOf(Next(t, step))
  {}

  /**
   Deleting everything peers ever do from a run leaves the fate of every local
   request unchanged: no peer can lock the local CLI out, or let it in.
   */
  lemma {:induction false} PeersDoNotAffectLocals(s: State, steps: seq<Step>)
    ensures ViewOf(Run(s, steps)) == ViewOf(Run(s, WithoutPeers(steps)))
  {
    if steps != [] {
      var front, last := steps[..|steps| - 1], steps[|steps| - 1];
      PeersDoNotAffectLocals(s, front);
      if !PeerStep(last) {
        var kept := WithoutPeers(front);
        assert (kept + [last])[..|kept|] == kept;
        LocalStepSeesOnlyView(Run(s, front), Run(s, kept), last);
      }
    }
  }
}
