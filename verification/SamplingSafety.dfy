/** What callers of the sampler can rely on in every reachable state. */
module SamplingSafety {
  import opened Prelude
  import opened Protocol
  import opened HistoryLog
  import opened Sampling

  ghost predicate Reachable(s: State) {
    exists interval: nat, steps: seq<Step> {:trigger Run(Init(interval), steps)} :: s == Run(Init(interval), steps)
  }

  lemma ReachableInv(s: State)
    requires Reachable(s)
    ensures Inv(s)
  {
    var interval: nat, steps: seq<Step> :| s == Run(Init(interval), steps);
    InitInv(interval);
    RunInv(Init(interval), steps);
  }

  // ---------------------------------------------------------------- single flight

  predicate LeadsKind(s: State, c: CallerId, kind: ProbeKind) {
    c in s.callers && s.callers[c].kind == kind && s.callers[c].phase.Leads()
  }

  /** A kind has at most one live leader, and its slot holds exactly that leader's round. */
  lemma SingleFlight(s: State, kind: ProbeKind, c: CallerId, d: CallerId)
    requires Reachable(s) && LeadsKind(s, c, kind) && LeadsKind(s, d, kind)
    ensures c == d
    ensures kind in s.slots && s.slots[kind].running == Some(s.callers[c].phase.round)
    ensures InRound(s, c) && RoundOf(s, c).leader == c && RoundOf(s, c).open && RoundOf(s, c).value.None?
  {
    ReachableInv(s);
    assert CallerOk(s, c) && CallerOk(s, d);
  }

  /** The slot offers a round to follow exactly while some caller leads the kind. */
  lemma FollowableIffLed(s: State, kind: ProbeKind)
    requires Reachable(s) && kind in s.slots
    ensures Followable(s, kind).Some? <==> exists d :: LeadsKind(s, d, kind)
    ensures forall d :: LeadsKind(s, d, kind) ==> Followable(s, kind) == Some(s.callers[d].phase.round)
  {
    ReachableInv(s);
    forall d | LeadsKind(s, d, kind) ensures Followable(s, kind) == Some(s.callers[d].phase.round) {
      assert CallerOk(s, d);
    }
    if Followable(s, kind).Some? {
      var r := Followable(s, kind).value;
      assert SlotOk(s, kind) && RoundOk(s, r);
      var d := s.rounds[r].leader;
      assert CallerOk(s, d);
      assert LeadsKind(s, d, kind);
    }
  }

  /**
   A new caller follows the live leader's round if there is one, is turned away only
   if it asked for due work and the kind's last publication is too recent, and leads
   a fresh round otherwise. In particular a dropped leader is never waited for.
   */
  lemma JoinDecides(s: State, c: CallerId, kind: ProbeKind, dueOnly: bool)
    requires Reachable(s) && CanJoin(s, c, kind)
    ensures var t := DoJoin(s, c, kind, dueOnly);
            var due := DueAfter(s.published, kind, s.interval);
            && t == s.(rounds := t.rounds, slots := t.slots, callers := s.callers[c := t.callers[c]])
            && t.callers[c].kind == kind && t.callers[c].since == s.now && t.callers[c].after == |s.published|
            && if exists d :: LeadsKind(s, d, kind) then
              && t.callers[c].phase.Reading?
              && (forall d :: LeadsKind(s, d, kind) ==> t.callers[c].phase.round == s.callers[d].phase.round)
              && t.rounds == s.rounds && t.slots == s.slots
            else if dueOnly && due.Some? && due.value > s.now then
              t.callers[c].phase == Skipped && t.rounds == s.rounds && t.slots == s.slots
            else
              && t.callers[c].phase == Working(|s.rounds|)
              && t.rounds == s.rounds + [Round(kind, c, dueOnly, None, true, None, None)]
              && t.slots == s.slots[kind := s.slots[kind].(running := Some(|s.rounds|))]
  {
    FollowableIffLed(s, kind);
    ReachableInv(s);
    assert DeadlineOk(s, kind);
  }

  /**
   No caller is stuck and none runs ahead: which steps it can take is decided by its
   phase alone, and for a waiting follower by its round. Past its last await a leader
   cannot be dropped.
   */
  lemma WhatCallersCanDo(s: State, c: CallerId, result: Shared)
    requires Reachable(s) && c in s.callers
    ensures s.callers[c].phase.Waiting? ==> InRound(s, c)
    ensures var phase := s.callers[c].phase;
            && (Enabled(s, WorkDone(c, result)) <==> phase.Working?)
            && (Enabled(s, WriteHistory(c)) <==> phase.Recording?)
            && (Enabled(s, Publish(c)) <==> phase.Publishing?)
            && (Enabled(s, Return(c)) <==> phase.Returning?)
            && (Enabled(s, Read(c)) <==> phase.Reading?)
            && (Enabled(s, Wake(c)) <==> phase.Waiting? && (RoundOf(s, c).value.Some? || !RoundOf(s, c).open))
            && (Enabled(s, Cancel(c)) <==> phase.Working? || phase.Recording? || phase.Waiting?)
  {
    ReachableInv(s);
    assert CallerOk(s, c);
  }

  // ---------------------------------------------------------------- results come from the probes

  /** What the probe of round `r` brought in a run, if it came back. */
  function WorkOf(interval: nat, steps: seq<Step>, r: nat): Option<Shared> {
    if steps == [] then None
    else
      var front, last := steps[..|steps| - 1], steps[|steps| - 1];
      var s := Run(Init(interval), front);
      if last.WorkDone? && Enabled(s, last) && PhaseOf(s, last.c).round == r then Some(last.result)
      else WorkOf(interval, front, r)
  }

  /** The round's history batch holds exactly these records. */
  ghost predicate RecordedAs(s: State, r: nat, records: seq<Record>)
    requires r < |s.rounds|
  {
    && s.rounds[r].batch.Some?
    && s.rounds[r].batch.value < |s.recorded|
    && s.recorded[s.rounds[r].batch.value].raw == records
  }

  /** `shared` is what becomes of the work's result: records as history stored them, an error as it is. */
  ghost predicate Delivers(s: State, r: nat, work: Shared, shared: Shared)
    requires r < |s.rounds|
  {
    match work
    case Failure(_) => shared == work && s.rounds[r].batch.None?
    case Records(records) =>
      RecordedAs(s, r, records) && shared == Records(s.recorded[s.rounds[r].batch.value].stored)
  }

  /** Where the result of a round's work is: nowhere yet, with the leader, published, or lost with it. */
  ghost predicate WorkKept(s: State, r: nat, work: Option<Shared>) {
    r < |s.rounds| && s.rounds[r].leader in s.callers ==>
      var round := s.rounds[r];
      var phase := s.callers[round.leader].phase;
      if work.None? then
        (phase == Working(r) || phase.Dropped?) && round.value.None? && round.batch.None?
      else
        && (round.value.Some? ==> Delivers(s, r, work.value, round.value.value))
        && match phase
           case Recording(own, records) =>
             own == r && work.value == Records(records) && round.value.None? && round.batch.None?
           case Publishing(own, result) => own == r && round.value.None? && Delivers(s, r, work.value, result)
           case Returning(own, _) => own == r && round.value.Some?
           case Done(own, _) => own == r && round.value.Some?
           case Dropped => round.value.None? && round.batch.None?
           case _ => false
  }

  /** The leader takes a step of its own. */
  lemma WorkOwnStep(s: State, step: Step, r: nat, work: Option<Shared>)
    requires Enabled(s, step) && ActorOk(s, step) && r < |s.rounds| && WorkKept(s, r, work)
    requires Actor(step) == Some(s.rounds[r].leader) && s.rounds[r].leader in s.callers
    ensures WorkKept(Apply(s, step), r, if step.WorkDone? then Some(step.result) else work)
  {}

  lemma WorkOtherStep(s: State, step: Step, r: nat, work: Option<Shared>)
    requires Enabled(s, step) && ActorOk(s, step) && r < |s.rounds| && WorkKept(s, r, work)
    requires Actor(step) != Some(s.rounds[r].leader) && s.rounds[r].leader in s.callers
    ensures WorkKept(Apply(s, step), r, work)
  {}

  lemma WorkStep(s: State, step: Step, r: nat, work: Option<Shared>)
    requires Enabled(s, step) && ActorOk(s, step) && r < |s.rounds| && WorkKept(s, r, work)
    requires s.rounds[r].leader in s.callers
    ensures var mine := step.WorkDone? && PhaseOf(s, step.c).round == r;
            WorkKept(Apply(s, step), r, if mine then Some(step.result) else work)
  {
    if Actor(step) == Some(s.rounds[r].leader) {
      WorkOwnStep(s, step, r, work);
    } else {
      WorkOtherStep(s, step, r, work);
    }
  }

  /** A round is born with its work still to come. */
  lemma WorkBegins(s: State, step: Step, r: nat)
    requires Enabled(s, step) && |s.rounds| <= r < |Apply(s, step).rounds|
    ensures WorkKept(Apply(s, step), r, None)
  {}

  lemma {:induction false} NoWorkBeforeRound(interval: nat, steps: seq<Step>, r: nat)
    requires r >= |Run(Init(interval), steps).rounds|
    ensures WorkOf(interval, steps, r) == None
  {
    if steps != [] {
      NoWorkBeforeRound(interval, steps[..|steps| - 1], r);
    }
  }

  lemma {:induction false} WorkIsKept(interval: nat, steps: seq<Step>, r: nat)
    ensures WorkKept(Run(Init(interval), steps), r, WorkOf(interval, steps, r))
  {
    if steps != [] {
      var front, last := steps[..|steps| - 1], steps[|steps| - 1];
      var s := Run(Init(interval), front);
      WorkIsKept(interval, front, r);
      InitInv(interval);
      RunInv(Init(interval), front);
      if Enabled(s, last) {
        InvActor(s, last);
        if r < |s.rounds| {
          assert RoundOk(s, r) && CallerOk(s, s.rounds[r].leader);
          WorkStep(s, last, r, WorkOf(interval, front, r));
        } else {
          NoWorkBeforeRound(interval, front, r);
          if r < |Apply(s, last).rounds| {
            WorkBegins(s, last, r);
          }
        }
      }
    }
  }

  /**
   In every run a round publishes what its own probe brought, and nothing else: an
   error as it is, records as history stored them, all of them and in their order.
   History holds for the round what the probe brought, or nothing.
   */
  lemma PublishedIsWork(interval: nat, steps: seq<Step>, r: nat)
    requires r < |Run(Init(interval), steps).rounds|
    ensures var s, work := Run(Init(interval), steps), WorkOf(interval, steps, r);
            && (s.rounds[r].value.Some? ==>
                  && work.Some?
                  && (work.value.Failure? ==> s.rounds[r].value.value == work.value)
                  && (work.value.Records? ==>
                        exists j :: 0 <= j < |s.recorded| && s.recorded[j].round == r
                          && s.recorded[j].raw == work.value.records
                          && s.rounds[r].value.value ==
                             Records(Stored(RecordedLog(s.recorded[..j]), work.value.records))))
            && (forall j :: 0 <= j < |s.recorded| && s.recorded[j].round == r ==>
                  work == Some(Records(s.recorded[j].raw)))
  {
    var s, work := Run(Init(interval), steps), WorkOf(interval, steps, r);
    WorkIsKept(interval, steps, r);
    InitInv(interval);
    RunInv(Init(interval), steps);
    assert RoundOk(s, r);
    if s.rounds[r].batch.Some? {
      assert BatchOk(s, s.rounds[r].batch.value);
    }
    forall j: nat | j < |s.recorded| && s.recorded[j].round == r
      ensures work == Some(Records(s.recorded[j].raw))
    {
      assert BatchOk(s, j);
    }
  }

  // ---------------------------------------------------------------- what never changes again

  /** Results, records and finished callers of `s` are still there, unchanged, in `t`. */
  ghost predicate Later(s: State, t: State) {
    && s.recorded <= t.recorded
    && s.published <= t.published
    && |s.rounds| <= |t.rounds|
    && (forall r: nat {:trigger s.rounds[r]} :: r < |s.rounds| ==> RoundLater(s.rounds[r], t.rounds[r]))
    && (forall c {:trigger s.callers[c]} :: c in s.callers ==> c in t.callers && CallerLater(s.callers[c], t.callers[c]))
  }

  /** A closed round without a value stays without one; a value is never replaced. */
  ghost predicate RoundLater(a: Round, b: Round) {
    && a.kind == b.kind && a.leader == b.leader && a.scheduled == b.scheduled
    && (!a.open ==> !b.open && a.value == b.value)
    && (a.value.Some? ==> a.value == b.value && a.publication == b.publication)
  }

  ghost predicate CallerLater(a: Caller, b: Caller) {
    && a.kind == b.kind && a.since == b.since && a.after == b.after
    && (a.phase.Over() ==> b.phase == a.phase)
    && (b.phase.RoundId().Some? ==> a.phase.RoundId() == b.phase.RoundId())
  }

  lemma StepLater(s: State, step: Step)
    requires Inv(s) && Enabled(s, step)
    ensures Later(s, Apply(s, step))
  {
    InvActor(s, step);
  }

  lemma LaterTransitive(s: State, t: State, u: State)
    requires Later(s, t) && Later(t, u)
    ensures Later(s, u)
  {
    forall c | c in s.callers ensures c in u.callers && CallerLater(s.callers[c], u.callers[c]) {
      assert c in t.callers && CallerLater(s.callers[c], t.callers[c]);
      assert CallerLater(t.callers[c], u.callers[c]);
    }
    forall r: nat | r < |s.rounds| ensures RoundLater(s.rounds[r], u.rounds[r]) {
      assert RoundLater(s.rounds[r], t.rounds[r]);
      assert RoundLater(t.rounds[r], u.rounds[r]);
    }
  }

  lemma {:induction false} RunLater(s: State, steps: seq<Step>)
    requires Inv(s)
    ensures Later(s, Run(s, steps))
  {
    if steps != [] {
      var mid, last := Run(s, steps[..|steps| - 1]), steps[|steps| - 1];
      RunLater(s, steps[..|steps| - 1]);
      RunInv(s, steps[..|steps| - 1]);
      if Enabled(mid, last) {
        StepLater(mid, last);
        LaterTransitive(s, mid, Apply(mid, last));
      }
    }
  }

  /** Once a leader is dropped, no run whatever publishes or records its round. */
  lemma DroppedRoundStaysEmpty(s: State, c: CallerId, more: seq<Step>)
    requires Reachable(s) && CanCancel(s, c) && PhaseOf(s, c).Leads()
    ensures var r := PhaseOf(s, c).round;
            var t := Run(DoCancel(s, c), more);
            && c in t.callers && t.callers[c].phase == Dropped
            && r < |t.rounds| && t.rounds[r].value.None?
            && (forall i :: 0 <= i < |t.published| ==> t.published[i].round != r)
            && (forall j :: 0 <= j < |t.recorded| ==> t.recorded[j].round != r)
  {
    ReachableInv(s);
    assert CallerOk(s, c);
    var mid, r := DoCancel(s, c), PhaseOf(s, c).round;
    StepInv(s, Cancel(c));
    assert mid == Next(s, Cancel(c));
    RunLater(mid, more);
    RunInv(mid, more);
    var t := Run(mid, more);
    assert RoundLater(mid.rounds[r], t.rounds[r]) && CallerLater(mid.callers[c], t.callers[c]);
    assert RoundOk(t, r);
    forall i: nat | i < |t.published| ensures t.published[i].round != r {
      assert PublicationOk(t, i);
    }
    forall j: nat | j < |t.recorded| ensures t.recorded[j].round != r {
      assert BatchOk(t, j);
    }
  }

  // ---------------------------------------------------------------- agreement and freshness

  /** Callers that got a result from one round got the same one. */
  lemma Agreement(s: State, c: CallerId, d: CallerId)
    requires Reachable(s) && c in s.callers && d in s.callers
    requires s.callers[c].phase.Done? && s.callers[d].phase.Done?
    requires s.callers[c].phase.round == s.callers[d].phase.round
    ensures s.callers[c].phase.verdict == s.callers[d].phase.verdict
  {
    ReachableInv(s);
    assert CallerOk(s, c) && CallerOk(s, d);
  }

  /**
   A result comes from one publication of the caller's own kind and round, made
   after the caller started; no other publication is of that round.
   */
  lemma Freshness(s: State, c: CallerId) returns (i: nat)
    requires Reachable(s) && c in s.callers
    requires s.callers[c].phase.Done? && s.callers[c].phase.verdict.Got?
    ensures var caller := s.callers[c];
            && i < |s.published|
            && s.published[i].round == caller.phase.round
            && s.published[i].kind == caller.kind
            && s.published[i].result == caller.phase.verdict.shared
            && caller.after <= i
            && caller.since <= s.published[i].at
            && forall k :: 0 <= k < |s.published| && s.published[k].round == caller.phase.round ==> k == i
  {
    ReachableInv(s);
    assert CallerOk(s, c) && FreshOk(s, c);
    var r := s.callers[c].phase.round;
    assert RoundOk(s, r);
    i := s.rounds[r].publication.value;
    forall k: nat | k < |s.published| ensures PublicationOk(s, k) {}
    assert PublicationOk(s, i);
    forall k: nat | k < |s.published| && s.published[k].round == r ensures k == i {
      assert PublicationOk(s, k);
    }
  }

  /** A caller and its round, at any later point of the run. */
  lemma RunKeepsRound(s: State, c: CallerId, more: seq<Step>)
    requires Reachable(s) && InRound(s, c)
    ensures var t, r := Run(s, more), s.callers[c].phase.round;
            && c in t.callers && CallerLater(s.callers[c], t.callers[c]) && CallerOk(t, c)
            && r < |t.rounds| && RoundLater(s.rounds[r], t.rounds[r])
  {
    ReachableInv(s);
    RunLater(s, more);
    RunInv(s, more);
    assert CallerLater(s.callers[c], Run(s, more).callers[c]);
    assert RoundLater(s.rounds[s.callers[c].phase.round], Run(s, more).rounds[s.callers[c].phase.round]);
  }

  /** Whatever happens next, a follower of a cancelled round can only be told so. */
  lemma CancelledRoundOnlyCancels(s: State, c: CallerId, more: seq<Step>)
    requires Reachable(s) && InRound(s, c) && !RoundOf(s, c).open && RoundOf(s, c).value.None?
    ensures var t := Run(s, more);
            && c in t.callers
            && (t.callers[c].phase.Done? ==>
                  t.callers[c].phase == Done(s.callers[c].phase.round, Cancelled))
  {
    RunKeepsRound(s, c, more);
    var phase := Run(s, more).callers[c].phase;
    if phase.Done? {
      assert phase.RoundId() == Some(phase.round);
      assert phase.verdict.Cancelled?;
    }
  }

  /** ... and a caller of a published round can only be given its value. */
  lemma PublishedRoundOnlyDelivers(s: State, c: CallerId, more: seq<Step>)
    requires Reachable(s) && InRound(s, c) && RoundOf(s, c).value.Some?
    ensures var t := Run(s, more);
            && c in t.callers
            && (t.callers[c].phase.Done? ==>
                  t.callers[c].phase == Done(s.callers[c].phase.round, Got(RoundOf(s, c).value.value)))
  {
    RunKeepsRound(s, c, more);
  }

  /** A follower is never stuck: it can go on now, or a live leader still owes it an answer. */
  lemma FollowersDoNotHang(s: State, c: CallerId)
    requires Reachable(s) && c in s.callers
    requires s.callers[c].phase.Reading? || s.callers[c].phase.Waiting?
    ensures InRound(s, c)
    ensures CanRead(s, c) || CanWake(s, c) ||
            (LeadsKind(s, RoundOf(s, c).leader, s.callers[c].kind)
             && s.callers[RoundOf(s, c).leader].phase.round == s.callers[c].phase.round)
  {
    ReachableInv(s);
    assert CallerOk(s, c);
    var r := s.callers[c].phase.round;
    assert RoundOk(s, r) && CallerOk(s, s.rounds[r].leader);
  }

  // ---------------------------------------------------------------- exactly-once recording

  function BatchesOf(recorded: seq<Batch>, r: nat): nat {
    if recorded == [] then 0
    else BatchesOf(recorded[..|recorded| - 1], r) + if recorded[|recorded| - 1].round == r then 1 else 0
  }

  lemma {:induction false} BatchesOfAbsent(recorded: seq<Batch>, r: nat)
    requires forall j :: 0 <= j < |recorded| ==> recorded[j].round != r
    ensures BatchesOf(recorded, r) == 0
  {
    if recorded != [] {
      BatchesOfAbsent(recorded[..|recorded| - 1], r);
    }
  }

  lemma {:induction false} BatchesOfUnique(recorded: seq<Batch>, r: nat, j: nat)
    requires j < |recorded| && recorded[j].round == r
    requires forall k :: 0 <= k < |recorded| && recorded[k].round == r ==> k == j
    ensures BatchesOf(recorded, r) == 1
  {
    var front := recorded[..|recorded| - 1];
    if j == |front| {
      BatchesOfAbsent(front, r);
    } else {
      BatchesOfUnique(front, r, j);
    }
  }

  /** The round's records are due in history: it published them, or is about to. */
  ghost predicate OwesHistory(s: State, r: nat)
    requires r < |s.rounds|
  {
    var round := s.rounds[r];
    if round.value.Some? then round.value.value.Records?
    else round.leader in s.callers && s.callers[round.leader].phase.Publishing?
         && s.callers[round.leader].phase.round == r && s.callers[round.leader].phase.result.Records?
  }

  /**
   A round with records is in history exactly once, from the moment its leader has
   written it; a round that failed, was cancelled or is still running is not there at all.
   */
  lemma RecordedExactlyOnce(s: State, r: nat)
    requires Reachable(s) && r < |s.rounds|
    ensures BatchesOf(s.recorded, r) == if OwesHistory(s, r) then 1 else 0
  {
    ReachableInv(s);
    assert RoundOk(s, r) && CallerOk(s, s.rounds[r].leader);
    forall j: nat | j < |s.recorded| ensures s.recorded[j].round == r ==> s.rounds[r].batch == Some(j) {
      assert BatchOk(s, j);
    }
    if OwesHistory(s, r) {
      BatchesOfUnique(s.recorded, r, s.rounds[r].batch.value);
    } else {
      BatchesOfAbsent(s.recorded, r);
    }
  }

  /** Nobody sees records before history holds the very same ones, in one whole batch. */
  lemma SeenMeansRecorded(s: State, c: CallerId) returns (j: nat)
    requires Reachable(s) && c in s.callers && s.callers[c].phase.Done?
    requires s.callers[c].phase.verdict.Got? && s.callers[c].phase.verdict.shared.Records?
    ensures j < |s.recorded|
    ensures s.recorded[j].round == s.callers[c].phase.round
    ensures s.recorded[j].stored == s.callers[c].phase.verdict.shared.records
    ensures s.recorded[j].stored == Stored(RecordedLog(s.recorded[..j]), s.recorded[j].raw)
  {
    ReachableInv(s);
    assert CallerOk(s, c);
    var r := s.callers[c].phase.round;
    assert RoundOk(s, r);
    j := s.rounds[r].batch.value;
    assert BatchOk(s, j);
  }

  function StoredLog(recorded: seq<Batch>): seq<Record> {
    if recorded == [] then [] else StoredLog(recorded[..|recorded| - 1]) + recorded[|recorded| - 1].stored
  }

  /** Batch `j` is stored as if inserted record by record after all batches before it. */
  ghost predicate StoredInTurn(recorded: seq<Batch>, j: nat)
    requires j < |recorded|
  {
    recorded[j].stored == Stored(RecordedLog(recorded[..j]), recorded[j].raw)
  }

  lemma AppendStored(log: seq<Record>, raw: seq<Record>)
    ensures Annotated(log + raw) == Annotated(log) + Stored(log, raw)
  {
    AnnotatedPrefix(log, raw);
  }

  lemma {:induction false} WholeBatches(recorded: seq<Batch>)
    requires forall j: nat {:trigger StoredInTurn(recorded, j)} :: j < |recorded| ==> StoredInTurn(recorded, j)
    ensures Annotated(RecordedLog(recorded)) == StoredLog(recorded)
  {
    if recorded != [] {
      var front, last := recorded[..|recorded| - 1], |recorded| - 1;
      forall j: nat | j < |front| ensures StoredInTurn(front, j) {
        assert StoredInTurn(recorded, j);
        assert front[..j] == recorded[..j];
      }
      WholeBatches(front);
      assert StoredInTurn(recorded, last);
      AppendStored(RecordedLog(front), recorded[last].raw);
    }
  }

  /** History is a concatenation of whole rounds; kinds mix at round boundaries only. */
  lemma HistoryIsWholeRounds(s: State)
    requires Reachable(s)
    ensures Annotated(RecordedLog(s.recorded)) == StoredLog(s.recorded)
    ensures forall j, k :: 0 <= j < k < |s.recorded| ==> s.recorded[j].round != s.recorded[k].round
  {
    ReachableInv(s);
    forall j: nat | j < |s.recorded|
      ensures StoredInTurn(s.recorded, j)
      ensures s.recorded[j].round < |s.rounds| && s.rounds[s.recorded[j].round].batch == Some(j)
    {
      assert BatchOk(s, j);
    }
    WholeBatches(s.recorded);
  }

  // ---------------------------------------------------------------- deadline and rate

  predicate IsLastOf(published: seq<Publication>, i: int, kind: ProbeKind) {
    && 0 <= i < |published|
    && published[i].kind == kind
    && forall k :: i < k < |published| ==> published[k].kind != kind
  }

  lemma {:induction false} NoneOfKind(published: seq<Publication>, kind: ProbeKind)
    ensures OfKind(published, kind) == [] <==> forall i :: 0 <= i < |published| ==> published[i].kind != kind
  {
    if published != [] {
      var front, last := published[..|published| - 1], |published| - 1;
      NoneOfKind(front, kind);
      assert forall i :: 0 <= i < last ==> front[i] == published[i];
    }
  }

  lemma {:induction false} LastOfKind(published: seq<Publication>, kind: ProbeKind, i: int)
    requires IsLastOf(published, i, kind)
    ensures var own := OfKind(published, kind);
            own != [] && own[|own| - 1] == published[i]
  {
    var front := published[..|published| - 1];
    if i < |front| {
      assert published[|front|].kind != kind;
      LastOfKind(front, kind, i);
    }
  }

  /**
   A kind's deadline is unset until it first publishes, and then always one interval
   after its own last publication, whatever other kinds and cancelled rounds do.
   */
  lemma DeadlineFollowsLastPublication(s: State, kind: ProbeKind)
    requires Reachable(s)
    ensures kind in s.slots
    ensures s.slots[kind].next.None? <==>
            forall i :: 0 <= i < |s.published| ==> s.published[i].kind != kind
    ensures forall i :: IsLastOf(s.published, i, kind) ==>
              s.slots[kind].next == Some(s.published[i].at + s.interval)
  {
    ReachableInv(s);
    EveryKindIsListed(kind);
    assert DeadlineOk(s, kind);
    NoneOfKind(s.published, kind);
    forall i | IsLastOf(s.published, i, kind)
      ensures DueAfter(s.published, kind, s.interval) == Some(s.published[i].at + s.interval)
    {
      LastOfKind(s.published, kind, i);
    }
  }

  function Scheduled(own: seq<Publication>): nat {
    if own == [] then 0
    else Scheduled(own[..|own| - 1]) + if own[|own| - 1].scheduled then 1 else 0
  }

  lemma {:induction false} SpacedRate(own: seq<Publication>, interval: nat)
    requires Spaced(own, interval) && own != []
    ensures (Scheduled(own[1..])) * interval <= own[|own| - 1].at - own[0].at
  {
    if |own| > 1 {
      var front := own[..|own| - 1];
      SpacedRate(front, interval);
      assert own[1..][..|own| - 2] == front[1..];
      assert front[|front| - 1].at + (if own[|own| - 1].scheduled then interval else 0) <= own[|own| - 1].at;
      OneMore(Scheduled(front[1..]), interval);
    }
  }

  lemma OneMore(n: nat, interval: nat)
    ensures (n + 1) * interval == n * interval + interval
  {}

  /**
   In any stretch of a kind's publications, those led by the timer after the first
   one are at least one interval each apart: manual probes never make them denser.
   */
  lemma ScheduledRate(s: State, kind: ProbeKind, from: nat, to: nat)
    requires Reachable(s)
    requires from < to <= |OfKind(s.published, kind)|
    ensures var own := OfKind(s.published, kind);
            Scheduled(own[from + 1..to]) * s.interval <= own[to - 1].at - own[from].at
  {
    ReachableInv(s);
    assert RateOk(s, kind);
    var own := OfKind(s.published, kind);
    assert Spaced(own[from..to], s.interval);
    assert own[from..to][1..] == own[from + 1..to];
    SpacedRate(own[from..to], s.interval);
  }
}
