/**
 Sampling rounds as a step system: any number of callers, rounds and probe kinds,
 with time passing and callers dropped at their await points. A step is one region
 that the code runs without awaiting or releasing its lock.
 */
module Sampling {
  import opened Prelude
  import opened Protocol
  import opened HistoryLog

  datatype CallerId = Manual(n: nat) | Timer(kind: ProbeKind, n: nat)

  /** What a round hands to all its callers. */
  datatype Shared = Records(records: seq<Record>) | Failure(error: Error)

  datatype Verdict = Got(shared: Shared) | Cancelled

  /**
   A round and its channel. `open` says that the sender is alive; `batch` and
   `publication` are the round's places in the insertion and publication orders.
   */
  datatype Round = Round(
    kind: ProbeKind,
    leader: CallerId,
    scheduled: bool,
    value: Option<Shared>,
    open: bool,
    batch: Option<nat>,
    publication: Option<nat>)
  {
    /** The channel's version: one value is ever sent. */
    function Version(): nat {
      if value.Some? then 1 else 0
    }
  }

  datatype Slot = Slot(running: Option<nat>, next: Option<nat>, version: nat)

  datatype Phase =
    | Working(round: nat)                          // leader awaiting the probe
    | Recording(round: nat, records: seq<Record>)  // leader awaiting the history lock
    | Publishing(round: nat, result: Shared)       // leader past its last await
    | Returning(round: nat, result: Shared)        // published, sender not yet dropped
    | Reading(round: nat)                          // follower about to look at the channel
    | Waiting(round: nat, seen: nat)               // follower awaiting a change
    | Skipped                                      // told that nothing is due
    | Done(round: nat, verdict: Verdict)
    | Dropped
  {
    function RoundId(): Option<nat> {
      if Skipped? || Dropped? then None else Some(round)
    }

    /** The caller holds a sender that has not published. */
    predicate Leads() {
      Working? || Recording? || Publishing?
    }

    predicate Over() {
      Skipped? || Done? || Dropped?
    }
  }

  /** `since` and `after` stamp the start: the time, and how much was published by then. */
  datatype Caller = Caller(kind: ProbeKind, since: nat, after: nat, phase: Phase)

  datatype Batch = Batch(round: nat, raw: seq<Record>, stored: seq<Record>)

  datatype Publication = Publication(round: nat, kind: ProbeKind, at: nat, scheduled: bool, result: Shared)

  datatype State = State(
    now: nat,
    interval: nat,
    slots: map<ProbeKind, Slot>,
    rounds: seq<Round>,
    callers: map<CallerId, Caller>,
    recorded: seq<Batch>,
    published: seq<Publication>)

  datatype Step =
    | Join(c: CallerId, kind: ProbeKind, dueOnly: bool)
    | WorkDone(c: CallerId, result: Shared)
    | WriteHistory(c: CallerId)
    | Publish(c: CallerId)
    | Return(c: CallerId)
    | Read(c: CallerId)
    | Wake(c: CallerId)
    | Cancel(c: CallerId)
    | Tick(now: nat)

  function Init(interval: nat): State {
    State(0, interval, map kind | kind in ALL_KINDS :: Slot(None, None, 0), [], map[], [], [])
  }

  /** Every record in history, in insertion order. */
  function RecordedLog(recorded: seq<Batch>): seq<Record> {
    if recorded == [] then [] else RecordedLog(recorded[..|recorded| - 1]) + recorded[|recorded| - 1].raw
  }

  /** The round a new caller of this kind would follow. */
  function Followable(s: State, kind: ProbeKind): Option<nat>
    requires kind in s.slots
  {
    match s.slots[kind].running
    case Some(r) => if r < |s.rounds| && s.rounds[r].open then Some(r) else None
    case None => None
  }

  predicate NotDue(s: State, kind: ProbeKind)
    requires kind in s.slots
  {
    s.slots[kind].next.Some? && s.slots[kind].next.value > s.now
  }

  /** Caller `c` is at a point that belongs to a round. */
  predicate InRound(s: State, c: CallerId) {
    c in s.callers && s.callers[c].phase.RoundId().Some? && s.callers[c].phase.round < |s.rounds|
  }

  function PhaseOf(s: State, c: CallerId): Phase
    requires c in s.callers
  {
    s.callers[c].phase
  }

  function RoundOf(s: State, c: CallerId): Round
    requires InRound(s, c)
  {
    s.rounds[s.callers[c].phase.round]
  }

  function Move(s: State, c: CallerId, phase: Phase): map<CallerId, Caller>
    requires c in s.callers
  {
    s.callers[c := s.callers[c].(phase := phase)]
  }

  // ---------------------------------------------------------------- steps

  predicate CanJoin(s: State, c: CallerId, kind: ProbeKind) {
    c !in s.callers && kind in s.slots
  }

  /** Follow a live round; otherwise start one, unless a scheduled caller finds nothing due. */
  function DoJoin(s: State, c: CallerId, kind: ProbeKind, dueOnly: bool): State
    requires CanJoin(s, c, kind)
  {
    var enter := Caller(kind, s.now, |s.published|, Skipped);
    if Followable(s, kind).Some? then
      s.(callers := s.callers[c := enter.(phase := Reading(Followable(s, kind).value))])
    else if dueOnly && NotDue(s, kind) then
      s.(callers := s.callers[c := enter])
    else
      s.(rounds := s.rounds + [Round(kind, c, dueOnly, None, true, None, None)],
         slots := s.slots[kind := s.slots[kind].(running := Some(|s.rounds|))],
         callers := s.callers[c := enter.(phase := Working(|s.rounds|))])
  }

  predicate CanFinishWork(s: State, c: CallerId) {
    InRound(s, c) && PhaseOf(s, c).Working?
  }

  /** An error skips history; records go on to wait for its lock. */
  function DoFinishWork(s: State, c: CallerId, result: Shared): State
    requires CanFinishWork(s, c)
  {
    var r := PhaseOf(s, c).round;
    s.(callers := Move(s, c, match result
                             case Records(records) => Recording(r, records)
                             case Failure(_) => Publishing(r, result)))
  }

  predicate CanWriteHistory(s: State, c: CallerId) {
    InRound(s, c) && PhaseOf(s, c).Recording?
  }

  /** The whole record loop runs under one write lock. */
  function DoWriteHistory(s: State, c: CallerId): State
    requires CanWriteHistory(s, c)
  {
    var phase := PhaseOf(s, c);
    var stored := Stored(RecordedLog(s.recorded), phase.records);
    s.(recorded := s.recorded + [Batch(phase.round, phase.records, stored)],
       rounds := s.rounds[phase.round := RoundOf(s, c).(batch := Some(|s.recorded|))],
       callers := Move(s, c, Publishing(phase.round, Records(stored))))
  }

  predicate CanPublish(s: State, c: CallerId) {
    InRound(s, c) && PhaseOf(s, c).Publishing? && s.callers[c].kind in s.slots
  }

  /** Under the slot's lock: move the deadline, send the result, clear the slot. */
  function DoPublish(s: State, c: CallerId): State
    requires CanPublish(s, c)
  {
    var phase, kind := PhaseOf(s, c), s.callers[c].kind;
    s.(slots := s.slots[kind := Slot(None, Some(s.now + s.interval), s.slots[kind].version + 1)],
       rounds := s.rounds[phase.round :=
                   RoundOf(s, c).(value := Some(phase.result), publication := Some(|s.published|))],
       published := s.published + [Publication(phase.round, kind, s.now, RoundOf(s, c).scheduled, phase.result)],
       callers := Move(s, c, Returning(phase.round, phase.result)))
  }

  predicate CanReturn(s: State, c: CallerId) {
    InRound(s, c) && PhaseOf(s, c).Returning?
  }

  function DoReturn(s: State, c: CallerId): State
    requires CanReturn(s, c)
  {
    var phase := PhaseOf(s, c);
    s.(rounds := s.rounds[phase.round := RoundOf(s, c).(open := false)],
       callers := Move(s, c, Done(phase.round, Got(phase.result))))
  }

  predicate CanRead(s: State, c: CallerId) {
    InRound(s, c) && PhaseOf(s, c).Reading?
  }

  function DoRead(s: State, c: CallerId): State
    requires CanRead(s, c)
  {
    var r := PhaseOf(s, c).round;
    s.(callers := Move(s, c, match RoundOf(s, c).value
                             case Some(shared) => Done(r, Got(shared))
                             case None => Waiting(r, RoundOf(s, c).Version())))
  }

  predicate Changed(s: State, c: CallerId)
    requires InRound(s, c)
  {
    PhaseOf(s, c).Waiting? && RoundOf(s, c).Version() != PhaseOf(s, c).seen
  }

  predicate CanWake(s: State, c: CallerId) {
    InRound(s, c) && PhaseOf(s, c).Waiting? && (Changed(s, c) || !RoundOf(s, c).open)
  }

  /** A change is noticed before a closed channel is. */
  function DoWake(s: State, c: CallerId): State
    requires CanWake(s, c)
  {
    var r := PhaseOf(s, c).round;
    s.(callers := Move(s, c, if Changed(s, c) then Reading(r) else Done(r, Cancelled)))
  }

  /** A caller can be dropped only where it awaits. */
  predicate CanCancel(s: State, c: CallerId) {
    InRound(s, c) && (PhaseOf(s, c).Working? || PhaseOf(s, c).Recording? || PhaseOf(s, c).Waiting?)
  }

  function DoCancel(s: State, c: CallerId): State
    requires CanCancel(s, c)
  {
    var t := s.(callers := Move(s, c, Dropped));
    if PhaseOf(s, c).Waiting? then t
    else t.(rounds := s.rounds[PhaseOf(s, c).round := RoundOf(s, c).(open := false)])
  }

  predicate Enabled(s: State, step: Step) {
    match step
    case Join(c, kind, _) => CanJoin(s, c, kind)
    case WorkDone(c, _) => CanFinishWork(s, c)
    case WriteHistory(c) => CanWriteHistory(s, c)
    case Publish(c) => CanPublish(s, c)
    case Return(c) => CanReturn(s, c)
    case Read(c) => CanRead(s, c)
    case Wake(c) => CanWake(s, c)
    case Cancel(c) => CanCancel(s, c)
    case Tick(now) => s.now <= now
  }

  function Apply(s: State, step: Step): State
    requires Enabled(s, step)
  {
    match step
    case Join(c, kind, dueOnly) => DoJoin(s, c, kind, dueOnly)
    case WorkDone(c, result) => DoFinishWork(s, c, result)
    case WriteHistory(c) => DoWriteHistory(s, c)
    case Publish(c) => DoPublish(s, c)
    case Return(c) => DoReturn(s, c)
    case Read(c) => DoRead(s, c)
    case Wake(c) => DoWake(s, c)
    case Cancel(c) => DoCancel(s, c)
    case Tick(now) => s.(now := now)
  }

  function Next(s: State, step: Step): State {
    if Enabled(s, step) then Apply(s, step) else s
  }

  /** A run tries the steps in order; a step that is not possible does nothing. */
  function Run(s: State, steps: seq<Step>): State {
    if steps == [] then s else Next(Run(s, steps[..|steps| - 1]), steps[|steps| - 1])
  }

  // ---------------------------------------------------------------- invariant

  /** The caller's round is the one its kind's slot holds, live and unpublished. */
  ghost predicate Leading(s: State, c: CallerId, r: nat) {
    && r < |s.rounds|
    && s.rounds[r].leader == c
    && s.rounds[r].open
    && s.rounds[r].value.None?
    && s.rounds[r].kind in s.slots
    && s.slots[s.rounds[r].kind].running == Some(r)
  }

  /** Records shared by a round are in history under its name; an error left nothing there. */
  ghost predicate Attested(s: State, r: nat, result: Shared)
    requires r < |s.rounds|
  {
    match result
    case Records(records) =>
      && s.rounds[r].batch.Some?
      && s.rounds[r].batch.value < |s.recorded|
      && s.recorded[s.rounds[r].batch.value].stored == records
    case Failure(_) => s.rounds[r].batch.None?
  }

  ghost predicate SlotOk(s: State, kind: ProbeKind) {
    kind in s.slots && s.slots[kind].running.Some? ==>
      var r := s.slots[kind].running.value;
      r < |s.rounds| && s.rounds[r].kind == kind && s.rounds[r].value.None?
  }

  ghost predicate CallerOk(s: State, c: CallerId) {
    c in s.callers ==>
      var caller := s.callers[c];
      && (caller.phase.RoundId().Some? ==>
            caller.phase.round < |s.rounds| && s.rounds[caller.phase.round].kind == caller.kind)
      && match caller.phase
         case Working(r) => Leading(s, c, r) && s.rounds[r].batch.None?
         case Recording(r, _) => Leading(s, c, r) && s.rounds[r].batch.None?
         case Publishing(r, result) => Leading(s, c, r) && Attested(s, r, result)
         case Returning(r, result) =>
           s.rounds[r].leader == c && s.rounds[r].open && s.rounds[r].value == Some(result)
         case Reading(r) => true
         case Waiting(r, seen) => seen == 0
         case Done(r, Got(shared)) => s.rounds[r].value == Some(shared)
         case Done(r, Cancelled) => s.rounds[r].value.None? && !s.rounds[r].open
         case Skipped => true
         case Dropped => true
  }

  /** While the sender lives, the round's leader is at the matching point. */
  ghost predicate LeaderOk(s: State, r: nat) {
    r < |s.rounds| ==>
      var round := s.rounds[r];
      && round.leader in s.callers
      && (round.open && round.value.None? ==>
            s.callers[round.leader].phase.Leads() && s.callers[round.leader].phase.round == r)
      && (round.open && round.value.Some? ==>
            s.callers[round.leader].phase == Returning(r, round.value.value))
  }

  /** The round's result agrees with the insertion and publication orders. */
  ghost predicate TraceOk(s: State, r: nat) {
    r < |s.rounds| ==>
      var round := s.rounds[r];
      && (round.value.None? <==> round.publication.None?)
      && (round.value.Some? ==> Attested(s, r, round.value.value))
      && (!round.open && round.value.None? ==> round.batch.None?)
      && (round.batch.Some? ==> round.batch.value < |s.recorded| && s.recorded[round.batch.value].round == r)
      && (round.publication.Some? ==>
            && round.publication.value < |s.published|
            && s.published[round.publication.value].round == r
            && Some(s.published[round.publication.value].result) == round.value)
  }

  ghost predicate RoundOk(s: State, r: nat) {
    LeaderOk(s, r) && TraceOk(s, r)
  }

  ghost predicate BatchOk(s: State, j: nat) {
    j < |s.recorded| ==>
      && s.recorded[j].round < |s.rounds|
      && s.rounds[s.recorded[j].round].batch == Some(j)
      && s.recorded[j].stored == Stored(RecordedLog(s.recorded[..j]), s.recorded[j].raw)
  }

  ghost predicate PublicationOk(s: State, i: nat) {
    i < |s.published| ==>
      && s.published[i].round < |s.rounds|
      && s.rounds[s.published[i].round].publication == Some(i)
      && s.rounds[s.published[i].round].kind == s.published[i].kind
      && s.rounds[s.published[i].round].scheduled == s.published[i].scheduled
      && s.published[i].at <= s.now
  }

  /** Whatever a caller joins is published after it started, or not at all. */
  ghost predicate FreshOk(s: State, c: CallerId) {
    c in s.callers ==>
      var caller := s.callers[c];
      && caller.since <= s.now
      && caller.after <= |s.published|
      && (InRound(s, c) && RoundOf(s, c).publication.Some? ==>
            var i := RoundOf(s, c).publication.value;
            i < |s.published| && caller.after <= i && caller.since <= s.published[i].at)
  }

  function OfKind(published: seq<Publication>, kind: ProbeKind): seq<Publication> {
    if published == [] then []
    else
      var rest := OfKind(published[..|published| - 1], kind);
      if published[|published| - 1].kind == kind then rest + [published[|published| - 1]] else rest
  }

  /** The deadline that a kind's publications call for. */
  function DueAfter(published: seq<Publication>, kind: ProbeKind, interval: nat): Option<nat> {
    var own := OfKind(published, kind);
    if own == [] then None else Some(own[|own| - 1].at + interval)
  }

  ghost predicate DeadlineOk(s: State, kind: ProbeKind) {
    kind in s.slots ==>
      && s.slots[kind].version == |OfKind(s.published, kind)|
      && s.slots[kind].next == DueAfter(s.published, kind, s.interval)
  }

  /** A scheduled leader began with nothing left to wait for, and that stays so. */
  ghost predicate DueOk(s: State, c: CallerId) {
    InRound(s, c) && PhaseOf(s, c).Leads() && RoundOf(s, c).scheduled && s.callers[c].kind in s.slots ==>
      !NotDue(s, s.callers[c].kind)
  }

  /** Publications of one kind are in time order, scheduled ones a whole interval apart from their predecessor. */
  ghost predicate Spaced(own: seq<Publication>, interval: nat) {
    forall i, j :: 0 <= i < j < |own| ==>
      own[i].at + (if own[j].scheduled then interval else 0) <= own[j].at
  }

  ghost predicate RateOk(s: State, kind: ProbeKind) {
    Spaced(OfKind(s.published, kind), s.interval)
  }

  ghost predicate Inv(s: State) {
    && s.slots.Keys == ALL_KINDS
    && (forall kind {:trigger SlotOk(s, kind)} :: SlotOk(s, kind))
    && (forall c {:trigger CallerOk(s, c)} :: CallerOk(s, c))
    && (forall r: nat {:trigger RoundOk(s, r)} :: RoundOk(s, r))
    && (forall j: nat {:trigger BatchOk(s, j)} :: BatchOk(s, j))
    && (forall i: nat {:trigger PublicationOk(s, i)} :: PublicationOk(s, i))
    && (forall c {:trigger FreshOk(s, c)} :: FreshOk(s, c))
    && (forall kind {:trigger DeadlineOk(s, kind)} :: DeadlineOk(s, kind))
    && (forall c {:trigger DueOk(s, c)} :: DueOk(s, c))
    && (forall kind {:trigger RateOk(s, kind)} :: RateOk(s, kind))
  }

  // ---------------------------------------------------------------- every step keeps it

  lemma InitInv(interval: nat)
    ensures Inv(Init(interval))
  {
    assert Init(interval).slots.Keys == ALL_KINDS;
  }

  /** The caller that a step belongs to, if any. */
  function Actor(step: Step): Option<CallerId> {
    if step.Tick? then None else Some(step.c)
  }

  /** What the invariant says about the caller that takes the step and the round it is in. */
  ghost predicate ActorOk(s: State, step: Step) {
    Actor(step).Some? ==>
      && CallerOk(s, step.c)
      && FreshOk(s, step.c)
      && DueOk(s, step.c)
      && (InRound(s, step.c) ==> RoundOk(s, PhaseOf(s, step.c).round))
      && (step.Join? && step.kind in s.slots && Followable(s, step.kind).Some? ==>
            JoinableOk(s, step.kind, Followable(s, step.kind).value))
  }

  /** What a new caller may follow is open, unpublished and of its own kind. */
  ghost predicate JoinableOk(s: State, kind: ProbeKind, r: nat) {
    && r < |s.rounds|
    && s.rounds[r].open
    && s.rounds[r].kind == kind
    && s.rounds[r].value.None?
    && s.rounds[r].publication.None?
  }

  lemma InvActor(s: State, step: Step)
    requires Inv(s)
    ensures ActorOk(s, step)
  {
    if step.Join? && step.kind in s.slots && Followable(s, step.kind).Some? {
      assert SlotOk(s, step.kind);
      assert RoundOk(s, Followable(s, step.kind).value);
    }
  }

  lemma SlotStep(s: State, step: Step, kind: ProbeKind)
    requires Enabled(s, step) && ActorOk(s, step)
    requires SlotOk(s, kind)
    ensures SlotOk(Apply(s, step), kind)
  {
  }

  lemma ActorStep(s: State, step: Step)
    requires Enabled(s, step) && ActorOk(s, step)
    requires Actor(step).Some?
    ensures CallerOk(Apply(s, step), step.c)
  {}

  /** What a step may change around a caller that does not take it: its round may publish, or close for good. */
  ghost predicate Undisturbed(s: State, t: State, c: CallerId) {
    && s.recorded <= t.recorded
    && |s.rounds| <= |t.rounds|
    && (c in t.callers <==> c in s.callers)
    && (c in s.callers ==> t.callers[c] == s.callers[c])
    && (InRound(s, c) ==>
          var r := s.callers[c].phase.round;
          && t.rounds[r].kind == s.rounds[r].kind
          && (s.rounds[r].leader == c || !s.rounds[r].open || s.rounds[r].value.Some? ==>
                t.rounds[r].value == s.rounds[r].value && (!s.rounds[r].open ==> !t.rounds[r].open))
          && (s.rounds[r].leader == c && s.rounds[r].open ==> t.rounds[r] == s.rounds[r])
          && (Leading(s, c, r) ==> Leading(t, c, r)))
  }

  lemma StepUndisturbed(s: State, step: Step, c: CallerId)
    requires Enabled(s, step) && ActorOk(s, step) && Actor(step) != Some(c)
    ensures Undisturbed(s, Apply(s, step), c)
  {}

  /** No step disturbs another caller: a leader keeps its round and its slot. */
  lemma BystanderStep(s: State, t: State, c: CallerId)
    requires Undisturbed(s, t, c) && CallerOk(s, c)
    ensures CallerOk(t, c)
  {}

  lemma LeaderStep(s: State, step: Step, r: nat)
    requires Enabled(s, step) && ActorOk(s, step)
    requires RoundOk(s, r)
    ensures LeaderOk(Apply(s, step), r)
  {}

  lemma QuietTraceStep(s: State, step: Step, r: nat)
    requires Enabled(s, step) && ActorOk(s, step) && !step.WriteHistory? && !step.Publish?
    requires RoundOk(s, r)
    ensures TraceOk(Apply(s, step), r)
  {}

  lemma RecordingTraceStep(s: State, step: Step, r: nat)
    requires Enabled(s, step) && ActorOk(s, step) && step.WriteHistory?
    requires RoundOk(s, r)
    ensures TraceOk(Apply(s, step), r)
  {}

  lemma PublishingTraceStep(s: State, step: Step, r: nat)
    requires Enabled(s, step) && ActorOk(s, step) && step.Publish?
    requires RoundOk(s, r)
    ensures TraceOk(Apply(s, step), r)
  {}

  lemma BatchStep(s: State, step: Step, j: nat)
    requires Enabled(s, step) && ActorOk(s, step)
    requires BatchOk(s, j)
    ensures BatchOk(Apply(s, step), j)
  {
    if j <= |s.recorded| && step.WriteHistory? {
      assert Apply(s, step).recorded[..j] == s.recorded[..j];
    }
  }

  lemma PublicationStep(s: State, step: Step, i: nat)
    requires Enabled(s, step) && ActorOk(s, step)
    requires PublicationOk(s, i)
    ensures PublicationOk(Apply(s, step), i)
  {
  }

  lemma FreshActorStep(s: State, step: Step, c: CallerId)
    requires Enabled(s, step) && ActorOk(s, step) && Actor(step) == Some(c)
    ensures FreshOk(Apply(s, step), c)
  {}

  lemma FreshBystanderStep(s: State, step: Step, c: CallerId)
    requires Enabled(s, step) && ActorOk(s, step) && Actor(step) != Some(c)
    requires FreshOk(s, c) && CallerOk(s, c)
    ensures FreshOk(Apply(s, step), c)
  {}

  lemma OfKindSnoc(published: seq<Publication>, p: Publication, kind: ProbeKind)
    ensures OfKind(published + [p], kind) ==
            if p.kind == kind then OfKind(published, kind) + [p] else OfKind(published, kind)
  {
    assert (published + [p])[..|published|] == published;
  }

  lemma DeadlineStep(s: State, step: Step, kind: ProbeKind)
    requires Enabled(s, step) && ActorOk(s, step)
    requires DeadlineOk(s, kind)
    ensures DeadlineOk(Apply(s, step), kind)
  {
    if step.Publish? {
      OfKindSnoc(s.published, DoPublish(s, step.c).published[|s.published|], kind);
    }
  }

  /** Only the leader that the slot names can move its kind's deadline. */
  lemma DueStep(s: State, step: Step, c: CallerId)
    requires Enabled(s, step) && ActorOk(s, step)
    requires DueOk(s, c) && CallerOk(s, c)
    ensures DueOk(Apply(s, step), c)
  {
  }

  lemma {:induction false} OfKindOnlyPast(published: seq<Publication>, kind: ProbeKind, now: nat)
    requires forall i :: 0 <= i < |published| ==> published[i].at <= now
    ensures forall i :: 0 <= i < |OfKind(published, kind)| ==>
              OfKind(published, kind)[i].at <= now && OfKind(published, kind)[i].kind == kind
  {
    if published != [] {
      OfKindOnlyPast(published[..|published| - 1], kind, now);
    }
  }

  lemma SpacedPush(own: seq<Publication>, p: Publication, interval: nat)
    requires Spaced(own, interval)
    requires forall i :: 0 <= i < |own| ==> own[i].at <= p.at
    requires own != [] && p.scheduled ==> own[|own| - 1].at + interval <= p.at
    ensures Spaced(own + [p], interval)
  {
    forall i | 0 <= i < |own| ensures own[i].at + (if p.scheduled then interval else 0) <= p.at {
      if i < |own| - 1 {
        assert own[i].at <= own[|own| - 1].at;
      }
    }
  }

  lemma SpacedPublish(published: seq<Publication>, p: Publication, interval: nat)
    requires Spaced(OfKind(published, p.kind), interval)
    requires forall i :: 0 <= i < |published| ==> published[i].at <= p.at
    requires var due := DueAfter(published, p.kind, interval);
             p.scheduled && due.Some? ==> due.value <= p.at
    ensures Spaced(OfKind(published + [p], p.kind), interval)
  {
    OfKindSnoc(published, p, p.kind);
    OfKindOnlyPast(published, p.kind, p.at);
    SpacedPush(OfKind(published, p.kind), p, interval);
  }

  lemma RateStep(s: State, step: Step, kind: ProbeKind)
    requires Enabled(s, step) && ActorOk(s, step)
    requires RateOk(s, kind) && DeadlineOk(s, kind)
    requires forall i: nat {:trigger PublicationOk(s, i)} :: PublicationOk(s, i)
    ensures RateOk(Apply(s, step), kind)
  {
    if step.Publish? {
      var p := DoPublish(s, step.c).published[|s.published|];
      if kind == p.kind {
        forall i | 0 <= i < |s.published| ensures s.published[i].at <= s.now {
          assert PublicationOk(s, i);
        }
        SpacedPublish(s.published, p, s.interval);
      } else {
        OfKindSnoc(s.published, p, kind);
      }
    }
  }

  lemma StepInv(s: State, step: Step)
    requires Inv(s)
    ensures Inv(Next(s, step))
  {
    if Enabled(s, step) {
      var t := Apply(s, step);
      InvActor(s, step);
      forall kind ensures SlotOk(t, kind) {
        assert SlotOk(s, kind);
        SlotStep(s, step, kind);
      }
      forall c ensures CallerOk(t, c) {
        assert CallerOk(s, c);
        if Actor(step) == Some(c) {
          ActorStep(s, step);
        } else {
          StepUndisturbed(s, step, c);
          BystanderStep(s, t, c);
        }
      }
      forall r: nat ensures RoundOk(t, r) {
        assert RoundOk(s, r);
        LeaderStep(s, step, r);
        if step.WriteHistory? {
          RecordingTraceStep(s, step, r);
        } else if step.Publish? {
          PublishingTraceStep(s, step, r);
        } else {
          QuietTraceStep(s, step, r);
        }
      }
      forall j: nat ensures BatchOk(t, j) {
        assert BatchOk(s, j);
        BatchStep(s, step, j);
      }
      forall i: nat ensures PublicationOk(t, i) {
        assert PublicationOk(s, i);
        PublicationStep(s, step, i);
      }
      forall c ensures FreshOk(t, c) {
        assert FreshOk(s, c) && CallerOk(s, c);
        if Actor(step) == Some(c) {
          FreshActorStep(s, step, c);
        } else {
          FreshBystanderStep(s, step, c);
        }
      }
      forall kind ensures DeadlineOk(t, kind) {
        assert DeadlineOk(s, kind);
        DeadlineStep(s, step, kind);
      }
      forall c ensures DueOk(t, c) {
        assert DueOk(s, c) && CallerOk(s, c);
        DueStep(s, step, c);
      }
      forall kind ensures RateOk(t, kind) {
        assert RateOk(s, kind) && DeadlineOk(s, kind);
        RateStep(s, step, kind);
      }
      assert t.slots.Keys == ALL_KINDS by {
        EveryKindIsListed(if step.Publish? && step.c in s.callers then s.callers[step.c].kind else Host);
      }
    }
  }

  lemma {:induction false} RunInv(s: State, steps: seq<Step>)
    requires Inv(s)
    ensures Inv(Run(s, steps))
  {
    if steps != [] {
      RunInv(s, steps[..|steps| - 1]);
      StepInv(Run(s, steps[..|steps| - 1]), steps[|steps| - 1]);
    }
  }
}
