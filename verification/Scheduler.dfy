/**
 The scheduler's timer loops on top of the sampler: one loop per configured probe
 kind, interleaved with manual callers, publications, cancellations and time.
 */
module Scheduler {
  import opened Prelude
  import opened Protocol
  import opened Sampling
  import Safety = SamplingSafety

  datatype LoopPhase =
    | Top                                   // about to read the deadline
    | Selecting(due: nat, seen: nat)        // awaiting a deadline change or the timer
    | Sampling(c: CallerId, seen: nat)      // inside `run_due`
    | Stopped

  /**
   `loops` counts completed iterations; `charged` lists the rounds that were
   cancelled while an iteration was following them.
   */
  datatype Loop = Loop(phase: LoopPhase, loops: nat, charged: seq<nat>)

  datatype World = World(s: State, timers: map<ProbeKind, Loop>)

  datatype Move =
    | Borrow(kind: ProbeKind)
    | Changed(kind: ProbeKind)
    | Fire(kind: ProbeKind)
    | Finish(kind: ProbeKind)
    | Stop(kind: ProbeKind)
    | Other(step: Step)

  /** One timer per distinct configured kind; configured order and repeats do not matter. */
  function Start(interval: nat, probes: seq<ProbeKind>): World {
    World(Init(interval), map kind | kind in probes :: Loop(Top, 0, []))
  }

  predicate Has(w: World, kind: ProbeKind) {
    kind in w.timers && kind in w.s.slots
  }

  predicate CanChange(w: World, kind: ProbeKind) {
    Has(w, kind) && w.timers[kind].phase.Selecting? && w.s.slots[kind].version != w.timers[kind].phase.seen
  }

  predicate CanFire(w: World, kind: ProbeKind) {
    && Has(w, kind)
    && w.timers[kind].phase.Selecting?
    && w.s.now >= w.timers[kind].phase.due
    && CanJoin(w.s, Timer(kind, w.timers[kind].loops), kind)
  }

  predicate CanFinish(w: World, kind: ProbeKind) {
    && Has(w, kind)
    && w.timers[kind].phase.Sampling?
    && w.timers[kind].phase.c in w.s.callers
    && w.s.callers[w.timers[kind].phase.c].phase.Over()
  }

  predicate CanStop(w: World, kind: ProbeKind) {
    && Has(w, kind)
    && (w.timers[kind].phase.Selecting? ||
        (w.timers[kind].phase.Sampling? && CanCancel(w.s, w.timers[kind].phase.c)))
  }

  /** Manual callers ask for work at once; a timer's caller is dropped only with its timer. */
  predicate Allowed(step: Step) {
    && (step.Join? ==> step.c.Manual? && !step.dueOnly)
    && (step.Cancel? ==> step.c.Manual?)
  }

  predicate Possible(w: World, move: Move) {
    match move
    case Borrow(kind) => Has(w, kind) && w.timers[kind].phase.Top?
    case Changed(kind) => CanChange(w, kind)
    case Fire(kind) => CanFire(w, kind)
    case Finish(kind) => CanFinish(w, kind)
    case Stop(kind) => CanStop(w, kind)
    case Other(step) => Enabled(w.s, step) && Allowed(step)
  }

  function DoBorrow(s: State, kind: ProbeKind, loop: Loop): Loop
    requires kind in s.slots
  {
    var slot := s.slots[kind];
    loop.(phase := Selecting(if slot.next.Some? then slot.next.value else s.now, slot.version))
  }

  function DoFinish(s: State, loop: Loop): Loop
    requires loop.phase.Sampling? && loop.phase.c in s.callers
  {
    var phase := s.callers[loop.phase.c].phase;
    Loop(Top, loop.loops + 1,
         if phase.Done? && phase.verdict.Cancelled? then loop.charged + [phase.round] else loop.charged)
  }

  function Act(w: World, move: Move): World
    requires Possible(w, move)
  {
    match move
    case Borrow(kind) => w.(timers := w.timers[kind := DoBorrow(w.s, kind, w.timers[kind])])
    case Changed(kind) =>
      w.(timers := w.timers[kind := w.timers[kind].(phase := Top, loops := w.timers[kind].loops + 1)])
    case Fire(kind) =>
      var loop, c := w.timers[kind], Timer(kind, w.timers[kind].loops);
      World(DoJoin(w.s, c, kind, true), w.timers[kind := loop.(phase := Sampling(c, loop.phase.seen))])
    case Finish(kind) => w.(timers := w.timers[kind := DoFinish(w.s, w.timers[kind])])
    case Stop(kind) =>
      var loop := w.timers[kind];
      World(if loop.phase.Sampling? then DoCancel(w.s, loop.phase.c) else w.s,
            w.timers[kind := loop.(phase := Stopped)])
    case Other(step) => w.(s := Apply(w.s, step))
  }

  function Follow(w: World, move: Move): World {
    if Possible(w, move) then Act(w, move) else w
  }

  function Play(w: World, moves: seq<Move>): World {
    if moves == [] then w else Follow(Play(w, moves[..|moves| - 1]), moves[|moves| - 1])
  }

  // ---------------------------------------------------------------- invariant

  /** One of the timer's own callers followed round `r` until it was cancelled. */
  ghost predicate Followed(s: State, kind: ProbeKind, r: nat) {
    exists n: nat {:trigger Timer(kind, n)} ::
      Timer(kind, n) in s.callers && s.callers[Timer(kind, n)].phase == Done(r, Cancelled)
  }

  /** Every charged round is a different cancelled round of this kind that this timer followed. */
  ghost predicate ChargedOk(s: State, kind: ProbeKind, charged: seq<nat>) {
    && (forall i :: 0 <= i < |charged| ==>
          && charged[i] < |s.rounds|
          && s.rounds[charged[i]].kind == kind
          && !s.rounds[charged[i]].open
          && s.rounds[charged[i]].value.None?
          && Followed(s, kind, charged[i]))
    && (forall i, j :: 0 <= i < j < |charged| ==> charged[i] != charged[j])
  }

  /**
   Completed iterations are paid for by publications seen at the last look at the
   deadline and by cancelled rounds. Whatever ends the current one pays for it too.
   */
  ghost predicate LoopOk(s: State, kind: ProbeKind, loop: Loop) {
    && kind in s.slots
    && ChargedOk(s, kind, loop.charged)
    && var version := s.slots[kind].version;
       var next := s.slots[kind].next;
       var paid := |loop.charged|;
       match loop.phase
       case Top => loop.loops <= version + paid
       case Selecting(due, seen) =>
         && loop.loops <= seen + paid
         && seen <= version
         && (seen == version && next.Some? ==> due == next.value)
         && (seen == version && next.None? ==> due <= s.now)
       case Sampling(c, seen) =>
         && loop.loops <= seen + paid
         && seen <= version
         && c == Timer(kind, loop.loops)
         && c in s.callers
         && s.callers[c].kind == kind
         && !s.callers[c].phase.Dropped?
         && (s.callers[c].phase.Skipped? ==> version > seen)
         && (InRound(s, c) ==> s.callers[c].phase.round !in loop.charged)
         && (InRound(s, c) && RoundOf(s, c).value.Some? ==> version > seen)
       case Stopped => loop.loops <= version + paid
  }

  /** Ids for later iterations are unused. */
  ghost predicate FreshIds(s: State, kind: ProbeKind, loop: Loop) {
    forall n: nat {:trigger Timer(kind, n)} ::
      Timer(kind, n) in s.callers ==> n < loop.loops || (n == loop.loops && !loop.phase.Selecting? && !loop.phase.Top?)
  }

  /** Rounds are scheduled exactly if a timer leads them, and only configured kinds have timers. */
  ghost predicate Enrolled(w: World) {
    && (forall r {:trigger w.s.rounds[r]} :: 0 <= r < |w.s.rounds| ==>
          (w.s.rounds[r].scheduled <==> w.s.rounds[r].leader.Timer?))
    && (forall c {:trigger c in w.s.callers} :: c in w.s.callers && c.Timer? ==> c.kind in w.timers)
    && (forall r {:trigger w.s.rounds[r]} :: 0 <= r < |w.s.rounds| && w.s.rounds[r].scheduled ==>
          w.s.rounds[r].kind in w.timers)
  }

  ghost predicate TimerOk(w: World, kind: ProbeKind) {
    kind in w.timers ==> LoopOk(w.s, kind, w.timers[kind]) && FreshIds(w.s, kind, w.timers[kind])
  }

  ghost predicate WorldOk(w: World) {
    && Inv(w.s)
    && Enrolled(w)
    && forall kind {:trigger TimerOk(w, kind)} :: TimerOk(w, kind)
  }

  // ---------------------------------------------------------------- every move keeps it

  lemma StartOk(interval: nat, probes: seq<ProbeKind>)
    ensures WorldOk(Start(interval, probes))
  {
    InitInv(interval);
    forall kind | kind in probes ensures kind in Init(interval).slots {
      EveryKindIsListed(kind);
    }
  }

  lemma FollowedStep(s: State, step: Step, kind: ProbeKind, r: nat)
    requires Enabled(s, step) && Followed(s, kind, r)
    ensures Followed(Apply(s, step), kind, r)
  {
    var n: nat :| Timer(kind, n) in s.callers && s.callers[Timer(kind, n)].phase == Done(r, Cancelled);
    var t := Apply(s, step);
    assert Timer(kind, n) in t.callers && t.callers[Timer(kind, n)] == s.callers[Timer(kind, n)];
  }

  /** A cancelled round stays cancelled, so charges stand. */
  lemma ChargedStep(s: State, step: Step, kind: ProbeKind, charged: seq<nat>)
    requires Enabled(s, step) && ActorOk(s, step) && ChargedOk(s, kind, charged)
    ensures ChargedOk(Apply(s, step), kind, charged)
  {
    forall i | 0 <= i < |charged| ensures Followed(Apply(s, step), kind, charged[i]) {
      FollowedStep(s, step, kind, charged[i]);
    }
  }

  /** A sampler step by anybody else leaves a timer's account in balance. */
  lemma IdleLoopStep(s: State, step: Step, kind: ProbeKind, loop: Loop)
    requires Enabled(s, step) && ActorOk(s, step)
    requires LoopOk(s, kind, loop) && !loop.phase.Sampling?
    ensures LoopOk(Apply(s, step), kind, loop)
  {
    ChargedStep(s, step, kind, loop.charged);
  }

  /** While the timer samples, its round's publication raises the version it has seen. */
  lemma BusyLoopStep(s: State, step: Step, kind: ProbeKind, loop: Loop)
    requires Enabled(s, step) && ActorOk(s, step)
    requires LoopOk(s, kind, loop) && loop.phase.Sampling? && CallerOk(s, loop.phase.c)
    requires step.Cancel? ==> step.c != loop.phase.c
    ensures LoopOk(Apply(s, step), kind, loop)
  {
    ChargedStep(s, step, kind, loop.charged);
  }

  lemma LoopStep(s: State, step: Step, kind: ProbeKind, loop: Loop)
    requires Inv(s) && Enabled(s, step) && LoopOk(s, kind, loop)
    requires step.Cancel? && loop.phase.Sampling? ==> step.c != loop.phase.c
    ensures LoopOk(Apply(s, step), kind, loop)
  {
    InvActor(s, step);
    if loop.phase.Sampling? {
      assert CallerOk(s, loop.phase.c);
      BusyLoopStep(s, step, kind, loop);
    } else {
      IdleLoopStep(s, step, kind, loop);
    }
  }

  lemma FireOk(s: State, kind: ProbeKind, loop: Loop)
    requires Inv(s) && LoopOk(s, kind, loop) && loop.phase.Selecting? && s.now >= loop.phase.due
    requires CanJoin(s, Timer(kind, loop.loops), kind)
    ensures var c := Timer(kind, loop.loops);
            LoopOk(DoJoin(s, c, kind, true), kind, loop.(phase := Sampling(c, loop.phase.seen)))
  {
    var c := Timer(kind, loop.loops);
    InvActor(s, Join(c, kind, true));
    ChargedStep(s, Join(c, kind, true), kind, loop.charged);
  }

  lemma FinishOk(s: State, kind: ProbeKind, loop: Loop)
    requires Inv(s) && LoopOk(s, kind, loop) && loop.phase.Sampling? && s.callers[loop.phase.c].phase.Over()
    ensures LoopOk(s, kind, DoFinish(s, loop))
  {
    assert CallerOk(s, loop.phase.c);
    assert loop.phase.c == Timer(kind, loop.loops);
  }

  lemma StopOk(s: State, kind: ProbeKind, loop: Loop)
    requires Inv(s) && LoopOk(s, kind, loop) && loop.phase.Sampling? && CanCancel(s, loop.phase.c)
    ensures LoopOk(DoCancel(s, loop.phase.c), kind, loop.(phase := Stopped))
  {
    InvActor(s, Cancel(loop.phase.c));
    ChargedStep(s, Cancel(loop.phase.c), kind, loop.charged);
  }

  /** The sampler step that a move contains. */
  function StepOf(w: World, move: Move): Option<Step>
    requires Possible(w, move)
  {
    match move
    case Fire(kind) => Some(Join(Timer(kind, w.timers[kind].loops), kind, true))
    case Stop(kind) => if w.timers[kind].phase.Sampling? then Some(Cancel(w.timers[kind].phase.c)) else None
    case Other(step) => Some(step)
    case _ => None
  }

  lemma StateAfter(w: World, move: Move)
    requires Possible(w, move)
    ensures Act(w, move).s == if StepOf(w, move).Some? then Next(w.s, StepOf(w, move).value) else w.s
    ensures StepOf(w, move).Some? ==> Enabled(w.s, StepOf(w, move).value)
    ensures Act(w, move).timers.Keys == w.timers.Keys
  {}

  lemma OwnTimerOk(w: World, move: Move)
    requires WorldOk(w) && Possible(w, move) && !move.Other?
    ensures TimerOk(Act(w, move), move.kind)
  {
    var kind, loop := move.kind, w.timers[move.kind];
    assert TimerOk(w, kind);
    match move
    case Borrow(_) =>
    case Changed(_) =>
    case Fire(_) => FireOk(w.s, kind, loop);
    case Finish(_) => FinishOk(w.s, kind, loop);
    case Stop(_) => if loop.phase.Sampling? { StopOk(w.s, kind, loop); }
  }

  lemma OtherIdsFresh(w: World, move: Move, kind: ProbeKind)
    requires Possible(w, move) && (move.Other? || move.kind != kind)
    requires kind in w.timers && FreshIds(w.s, kind, w.timers[kind])
    ensures FreshIds(Act(w, move).s, kind, w.timers[kind])
  {
    var t := Act(w, move).s;
    forall n: nat | Timer(kind, n) in t.callers
      ensures Timer(kind, n) in w.s.callers
    {
      if move.Stop? && w.timers[move.kind].phase.Sampling? {
        assert w.timers[move.kind].phase.c in w.s.callers;
      }
    }
  }

  lemma OtherTimerOk(w: World, move: Move, kind: ProbeKind)
    requires WorldOk(w) && Possible(w, move) && (move.Other? || move.kind != kind)
    ensures TimerOk(Act(w, move), kind)
  {
    assert TimerOk(w, kind);
    if kind in w.timers {
      OtherIdsFresh(w, move, kind);
      StateAfter(w, move);
      if move.Stop? {
        assert TimerOk(w, move.kind);
      }
      if StepOf(w, move).Some? {
        LoopStep(w.s, StepOf(w, move).value, kind, w.timers[kind]);
      }
    }
  }

  lemma EnrolledStep(w: World, move: Move)
    requires WorldOk(w) && Possible(w, move)
    ensures Enrolled(Act(w, move))
  {
    StateAfter(w, move);
  }

  lemma FollowOk(w: World, move: Move)
    requires WorldOk(w)
    ensures WorldOk(Follow(w, move))
    ensures Follow(w, move).timers.Keys == w.timers.Keys
  {
    if Possible(w, move) {
      StateAfter(w, move);
      if StepOf(w, move).Some? {
        StepInv(w.s, StepOf(w, move).value);
      }
      EnrolledStep(w, move);
      forall kind ensures TimerOk(Act(w, move), kind) {
        if !move.Other? && move.kind == kind {
          OwnTimerOk(w, move);
        } else {
          OtherTimerOk(w, move, kind);
        }
      }
    }
  }

  lemma {:induction false} PlayOk(interval: nat, probes: seq<ProbeKind>, moves: seq<Move>)
    ensures WorldOk(Play(Start(interval, probes), moves))
    ensures Play(Start(interval, probes), moves).timers.Keys == set kind | kind in probes
  {
    if moves == [] {
      StartOk(interval, probes);
    } else {
      PlayOk(interval, probes, moves[..|moves| - 1]);
      FollowOk(Play(Start(interval, probes), moves[..|moves| - 1]), moves[|moves| - 1]);
    }
  }

  // ---------------------------------------------------------------- theorems

  /**
   A timer never spins: whatever manual callers do, its completed iterations number
   at most the publications of its kind plus the distinct rounds of its kind that
   were cancelled while it, and not some other caller, followed them.
   */
  lemma NeverSpins(interval: nat, probes: seq<ProbeKind>, moves: seq<Move>, kind: ProbeKind)
    requires kind in probes
    ensures var w := Play(Start(interval, probes), moves);
            && kind in w.timers
            && w.timers[kind].loops <= |OfKind(w.s.published, kind)| + |w.timers[kind].charged|
            && ChargedOk(w.s, kind, w.timers[kind].charged)
  {
    PlayOk(interval, probes, moves);
    var w := Play(Start(interval, probes), moves);
    assert kind in w.timers.Keys;
    assert TimerOk(w, kind) && DeadlineOk(w.s, kind);
  }

  /** Probing a kind by hand never puts it on the schedule. */
  lemma ManualProbesDoNotEnroll(interval: nat, probes: seq<ProbeKind>, moves: seq<Move>, i: nat)
    requires i < |Play(Start(interval, probes), moves).s.published|
    requires Play(Start(interval, probes), moves).s.published[i].scheduled
    ensures Play(Start(interval, probes), moves).s.published[i].kind in probes
  {
    PlayOk(interval, probes, moves);
    var w := Play(Start(interval, probes), moves);
    assert PublicationOk(w.s, i);
    assert w.s.rounds[w.s.published[i].round].scheduled;
    assert w.s.published[i].kind in w.timers.Keys;
  }

  /** A publication counts as scheduled exactly if its round's leader was a timer. */
  lemma ScheduledMeansTimer(interval: nat, probes: seq<ProbeKind>, moves: seq<Move>, i: nat)
    requires i < |Play(Start(interval, probes), moves).s.published|
    ensures var s := Play(Start(interval, probes), moves).s;
            && s.published[i].round < |s.rounds|
            && (s.published[i].scheduled <==> s.rounds[s.published[i].round].leader.Timer?)
  {
    PlayOk(interval, probes, moves);
    assert PublicationOk(Play(Start(interval, probes), moves).s, i);
  }

  /** The iterations that a timer completed in a run: a deadline change, or a return from sampling. */
  function Iterations(w: World, moves: seq<Move>, kind: ProbeKind): nat {
    if moves == [] then 0
    else
      var front, last := moves[..|moves| - 1], moves[|moves| - 1];
      Iterations(w, front, kind) +
      if (last == Changed(kind) || last == Finish(kind)) && Possible(Play(w, front), last) then 1 else 0
  }

  lemma MoveCounts(w: World, move: Move, kind: ProbeKind)
    requires Possible(w, move) && kind in w.timers
    ensures var t := Act(w, move);
            && kind in t.timers
            && t.timers[kind].loops == w.timers[kind].loops + if move == Changed(kind) || move == Finish(kind) then 1 else 0
  {}

  /** `loops` is the number of completed iterations, so the bound on it is a bound on them. */
  lemma {:induction false} LoopsAreIterations(interval: nat, probes: seq<ProbeKind>, moves: seq<Move>, kind: ProbeKind)
    requires kind in probes
    ensures var w := Play(Start(interval, probes), moves);
            kind in w.timers && w.timers[kind].loops == Iterations(Start(interval, probes), moves, kind)
  {
    PlayOk(interval, probes, moves);
    assert kind in Play(Start(interval, probes), moves).timers.Keys;
    if moves != [] {
      var w, last := Play(Start(interval, probes), moves[..|moves| - 1]), moves[|moves| - 1];
      LoopsAreIterations(interval, probes, moves[..|moves| - 1], kind);
      if Possible(w, last) {
        MoveCounts(w, last, kind);
      }
    }
  }

  lemma TimerFacts(interval: nat, probes: seq<ProbeKind>, moves: seq<Move>, kind: ProbeKind)
    requires kind in probes
    ensures var w := Play(Start(interval, probes), moves);
            && kind in w.timers && kind in w.s.slots
            && LoopOk(w.s, kind, w.timers[kind]) && FreshIds(w.s, kind, w.timers[kind]) && DeadlineOk(w.s, kind)
  {
    PlayOk(interval, probes, moves);
    var w := Play(Start(interval, probes), moves);
    assert kind in w.timers.Keys;
    assert TimerOk(w, kind) && DeadlineOk(w.s, kind);
  }

  lemma TimerWakes(w: World, kind: ProbeKind)
    requires kind in w.timers && LoopOk(w.s, kind, w.timers[kind]) && FreshIds(w.s, kind, w.timers[kind])
    requires DeadlineOk(w.s, kind) && w.timers[kind].phase.Selecting?
    ensures var seen, own := w.timers[kind].phase.seen, OfKind(w.s.published, kind);
            && (CanChange(w, kind) <==> |own| > seen)
            && (|own| == seen ==> (CanFire(w, kind) <==> own == [] || own[|own| - 1].at + w.s.interval <= w.s.now))
  {}

  /**
   A waiting timer starts over as soon as there is a publication it has not seen. Else
   it fires at once if there never was one, and one interval after the last one if so.
   */
  lemma WhenTimersWake(interval: nat, probes: seq<ProbeKind>, moves: seq<Move>, kind: ProbeKind)
    requires kind in probes
    ensures kind in Play(Start(interval, probes), moves).timers
    ensures var w := Play(Start(interval, probes), moves);
            var phase, own := w.timers[kind].phase, OfKind(w.s.published, kind);
            && (Possible(w, Changed(kind)) <==> phase.Selecting? && |own| > phase.seen)
            && (phase.Selecting? && |own| == phase.seen ==>
                  (Possible(w, Fire(kind)) <==> own == [] || own[|own| - 1].at + w.s.interval <= w.s.now))
  {
    TimerFacts(interval, probes, moves, kind);
    var w := Play(Start(interval, probes), moves);
    if w.timers[kind].phase.Selecting? {
      TimerWakes(w, kind);
    }
  }

  /** A timer looks at its deadline at the top; it returns from sampling when its caller has, and can be stopped where it awaits. */
  lemma WhatTimersCanDo(interval: nat, probes: seq<ProbeKind>, moves: seq<Move>, kind: ProbeKind)
    requires kind in probes
    ensures kind in Play(Start(interval, probes), moves).timers
    ensures var w := Play(Start(interval, probes), moves);
            var phase := w.timers[kind].phase;
            && (Possible(w, Borrow(kind)) <==> phase.Top?)
            && (phase.Sampling? ==> phase.c in w.s.callers)
            && (Possible(w, Finish(kind)) <==> phase.Sampling? && w.s.callers[phase.c].phase.Over())
            && (Possible(w, Stop(kind)) <==> phase.Selecting? || (phase.Sampling? && CanCancel(w.s, phase.c)))
  {
    TimerFacts(interval, probes, moves, kind);
  }

  /**
   Where each move takes a timer: having looked at the deadline it has seen every
   publication so far and waits; a change or a return takes it back to the top; a timer
   that goes off samples for due work under an id of its own.
   */
  lemma WhereTimersGo(interval: nat, probes: seq<ProbeKind>, moves: seq<Move>, move: Move)
    requires var w := Play(Start(interval, probes), moves); !move.Other? && move.kind in probes && Possible(w, move)
    ensures move.kind in Play(Start(interval, probes), moves).timers
    ensures move.kind in Act(Play(Start(interval, probes), moves), move).timers
    ensures var w := Play(Start(interval, probes), moves);
            var before, after := w.timers[move.kind].phase, Act(w, move).timers[move.kind].phase;
            match move
            case Borrow(kind) => after.Selecting? && after.seen == |OfKind(w.s.published, kind)|
            case Changed(_) => after == Top
            case Fire(kind) =>
              var c := Timer(kind, w.timers[kind].loops);
              before.Selecting? && after == LoopPhase.Sampling(c, before.seen) && c !in w.s.callers
            case Finish(_) => after == Top
            case Stop(_) => after == Stopped
  {
    TimerFacts(interval, probes, moves, move.kind);
  }

  /** Timers keep nobody from the sampler: a manual caller may do all it could without them, and so may any leader. */
  lemma OthersCanProceed(w: World, step: Step)
    requires Enabled(w.s, step)
    ensures Possible(w, Move.Other(step)) <==>
              && (step.Join? ==> step.c.Manual? && !step.dueOnly)
              && (step.Cancel? ==> step.c.Manual?)
    ensures Possible(w, Move.Other(step)) ==> Act(w, Move.Other(step)) == w.(s := Next(w.s, step))
  {}

  lemma ReachableNext(s: State, step: Step)
    requires Safety.Reachable(s)
    ensures Safety.Reachable(Next(s, step))
  {
    var interval: nat, steps: seq<Step> :| s == Run(Init(interval), steps);
    assert (steps + [step])[..|steps|] == steps;
    assert Next(s, step) == Run(Init(interval), steps + [step]);
  }

  /** With timers the sampler reaches nothing new, so its guarantees hold here too. */
  lemma {:induction false} PlayIsReachable(interval: nat, probes: seq<ProbeKind>, moves: seq<Move>)
    ensures Safety.Reachable(Play(Start(interval, probes), moves).s)
  {
    if moves == [] {
      assert Init(interval) == Run(Init(interval), []);
    } else {
      var w, move := Play(Start(interval, probes), moves[..|moves| - 1]), moves[|moves| - 1];
      PlayIsReachable(interval, probes, moves[..|moves| - 1]);
      if Possible(w, move) {
        StateAfter(w, move);
        if StepOf(w, move).Some? {
          ReachableNext(w.s, StepOf(w, move).value);
        }
      }
    }
  }
}
