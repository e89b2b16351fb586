/** One timer loop as an object, driving the sampler between its await points. */
module TimerLoop {
  import opened Prelude
  import opened Protocol
  import opened Sampling
  import opened Scheduler
  import S = Sampler

  class TimerLoop {
    const kind: ProbeKind
    const sampler: S.Sampler
    /** When the timer goes off, and the deadline's version at the last look. */
    var due: nat
    var seen: nat
    ghost var loop: Loop

    ghost predicate Valid()
      reads this, sampler, sampler.history
    {
      && sampler.Valid()
      && LoopOk(sampler.model, kind, loop)
      && FreshIds(sampler.model, kind, loop)
      && (loop.phase.Selecting? ==> loop.phase == Selecting(due, seen))
    }

    constructor (kind: ProbeKind, sampler: S.Sampler)
      requires sampler.Valid()
      requires forall n: nat {:trigger Timer(kind, n)} :: Timer(kind, n) !in sampler.model.callers
      ensures Valid() && this.sampler == sampler && this.kind == kind && loop == Loop(Top, 0, [])
    {
      this.kind := kind;
      this.sampler := sampler;
      due, seen, loop := 0, 0, Loop(Top, 0, []);
      new;
      EveryKindIsListed(kind);
    }

    /** Reads the deadline and marks it seen; a kind never published is due at once. */
    method BorrowAndUpdate()
      requires Valid() && loop.phase.Top?
      modifies this
      ensures Valid() && loop == DoBorrow(sampler.model, kind, old(loop))
    {
      var slot := sampler.slots[kind];
      due := if slot.next.Some? then slot.next.value else sampler.now;
      seen := slot.version;
      loop := DoBorrow(sampler.model, kind, loop);
    }

    /** The deadline moved while the timer was pending: start over. */
    method DeadlineChanged() returns (changed: bool)
      requires Valid() && loop.phase.Selecting?
      modifies this
      ensures Valid()
      ensures changed == (sampler.slots[kind].version != old(seen))
      ensures loop == if changed then old(loop).(phase := Top, loops := old(loop).loops + 1) else old(loop)
    {
      changed := sampler.slots[kind].version != seen;
      if changed {
        loop := loop.(phase := Top, loops := loop.loops + 1);
      }
    }

    /** The timer went off: ask the sampler for due work, which it rechecks under its lock. */
    method Fire() returns (entry: S.Entry)
      requires Valid() && loop.phase.Selecting? && sampler.now >= due
      modifies this, sampler
      ensures Valid()
      ensures var c := Timer(kind, old(loop).loops);
              && sampler.model == DoJoin(old(sampler.model), c, kind, true)
              && loop == old(loop).(phase := Scheduler.Sampling(c, old(seen)))
    {
      ghost var c := Timer(kind, loop.loops);
      FireOk(sampler.model, kind, loop);
      entry := sampler.Join(c, kind, true);
      loop := loop.(phase := Scheduler.Sampling(c, seen));
    }

    /** `run_due` returned; an error is logged and the loop goes on. */
    ghost method Finish()
      requires Valid() && loop.phase.Sampling? && sampler.model.callers[loop.phase.c].phase.Over()
      modifies this`loop
      ensures Valid() && loop == DoFinish(sampler.model, old(loop))
    {
      FinishOk(sampler.model, kind, loop);
      loop := DoFinish(sampler.model, loop);
    }
  }
}
