/**
 The sampler as an object. Each method is the code between two await points, run
 under the lock it names; a caller's local variables are its parameters. Every
 method is proved to take one step of the `Sampling` model, kept as ghost state.
 */
module Sampler {
  import opened Prelude
  import opened Protocol
  import opened HistoryLog
  import opened Sampling
  import H = History
  import T = Timeline

  /** A round's watch channel: its value, and whether the sender lives. */
  datatype Channel = Channel(value: Option<Shared>, open: bool)

  /** How `sample` goes on after it looked at the slot. */
  datatype Entry = Follow(round: nat) | NothingDue | Lead(round: nat)

  /** One turn of the record loop, on the log, the stored records and the timeline. */
  lemma InsertStep(log: seq<Record>, records: seq<Record>, i: nat)
    requires i < |records|
    ensures var before := log + records[..i];
            && log + records[..i + 1] == before + [records[i]]
            && Stored(log, records[..i + 1]) == Stored(log, records[..i]) + [Annotate(before, records[i])]
            && T.Entries(before + [records[i]]) ==
               T.Entries(before) + [T.Entry(KeyOf(Annotate(before, records[i])),
                 T.Log(Annotate(before, records[i]), TransitionAfter(before, records[i])))]
  {
    var before := log + records[..i];
    assert records[..i + 1] == records[..i] + [records[i]];
    assert log + records[..i + 1] == before + [records[i]];
    StoredSnoc(log, records[..i], records[i]);
    T.EntriesSnoc(before, records[i]);
  }

  /** What the write step does to the log, the leader and the channels. */
  lemma WriteStep(s: State, c: CallerId)
    requires CanWriteHistory(s, c)
    ensures var t, phase := DoWriteHistory(s, c), PhaseOf(s, c);
            && RecordedLog(t.recorded) == RecordedLog(s.recorded) + phase.records
            && t.callers[c].phase == Publishing(phase.round, Records(Stored(RecordedLog(s.recorded), phase.records)))
            && |t.rounds| == |s.rounds|
            && forall r :: 0 <= r < |s.rounds| ==>
                 t.rounds[r].value == s.rounds[r].value && t.rounds[r].open == s.rounds[r].open
  {
    assert DoWriteHistory(s, c).recorded[..|s.recorded|] == s.recorded;
  }

  lemma WriteKeepsInv(s: State, c: CallerId)
    requires Inv(s) && CanWriteHistory(s, c)
    ensures Inv(DoWriteHistory(s, c))
  {
    StepInv(s, Step.WriteHistory(c));
  }

  class Sampler {
    const interval: nat
    const history: H.History
    var slots: map<ProbeKind, Slot>
    var channels: seq<Channel>
    /** The monotone clock. */
    var now: nat
    /** The events emitted so far; `Quiet` ones are at debug level. */
    var timeline: seq<T.Entry>
    ghost var model: State

    ghost predicate Represents()
      reads this
    {
      && slots == model.slots
      && now == model.now
      && interval == model.interval
      && |channels| == |model.rounds|
      && forall r :: 0 <= r < |channels| ==> channels[r] == Channel(model.rounds[r].value, model.rounds[r].open)
    }

    /** History holds the recorded batches and nothing else, and the timeline narrates it. */
    ghost predicate Valid()
      reads this, history
    {
      && Represents()
      && Inv(model)
      && history.Valid()
      && history.log == RecordedLog(model.recorded)
      && timeline == T.Entries(history.log)
    }

    constructor (interval: nat, historySize: nat)
      ensures Valid() && fresh(history)
      ensures model == Init(interval)
      ensures history.capacity == if historySize == 0 then 1 else historySize
    {
      this.interval := interval;
      history := new H.History(historySize);
      slots := map kind | kind in ALL_KINDS :: Slot(None, None, 0);
      channels, now, timeline := [], 0, [];
      model := Init(interval);
      new;
      InitInv(interval);
    }

    /** Under the slot's lock: follow a live round, report that nothing is due, or start a round. */
    method Join(ghost c: CallerId, kind: ProbeKind, dueOnly: bool) returns (entry: Entry)
      requires Valid() && CanJoin(model, c, kind)
      modifies this
      ensures Valid() && model == DoJoin(old(model), c, kind, dueOnly)
      ensures match entry
              case Follow(r) => model.callers[c].phase == Reading(r)
              case NothingDue => model.callers[c].phase == Skipped
              case Lead(r) => model.callers[c].phase == Working(r)
    {
      assert Inv(DoJoin(model, c, kind, dueOnly)) by {
        StepInv(model, Step.Join(c, kind, dueOnly));
      }
      model := DoJoin(model, c, kind, dueOnly);
      var slot := slots[kind];
      if slot.running.Some? && slot.running.value < |channels| && channels[slot.running.value].open {
        entry := Follow(slot.running.value);
      } else if dueOnly && slot.next.Some? && slot.next.value > now {
        entry := NothingDue;
      } else {
        entry := Lead(|channels|);
        slots := slots[kind := slot.(running := Some(|channels|))];
        channels := channels + [Channel(None, true)];
      }
    }

    /** The probe came back; only the leader's own state moves. */
    ghost method FinishWork(c: CallerId, result: Shared)
      requires Valid() && CanFinishWork(model, c)
      modifies this`model
      ensures Valid() && model == DoFinishWork(old(model), c, result)
    {
      StepInv(model, WorkDone(c, result));
      model := DoFinishWork(model, c, result);
    }

    /** Inserts and logs the records of a round, one after the other. */
    method InsertAll(records: seq<Record>) returns (stored: seq<Record>)
      requires history.Valid() && timeline == T.Entries(history.log)
      modifies this`timeline, history
      ensures history.Valid() && timeline == T.Entries(history.log)
      ensures history.log == old(history.log) + records
      ensures stored == Stored(old(history.log), records)
    {
      ghost var log := history.log;
      stored := [];
      assert log + [] == log;
      for i := 0 to |records|
        invariant history.Valid() && history.log == log + records[..i]
        invariant stored == Stored(log, records[..i])
        invariant timeline == T.Entries(history.log)
      {
        InsertStep(log, records, i);
        var record, transition := history.Insert(records[i]);
        stored := stored + [record];
        timeline := timeline + [T.Entry(KeyOf(record), T.Log(record, transition))];
      }
      assert records[..|records|] == records;
    }

    /** Under the history's write lock: the whole round goes in. */
    method WriteHistory(ghost c: CallerId, records: seq<Record>) returns (stored: seq<Record>)
      requires Valid() && CanWriteHistory(model, c) && PhaseOf(model, c).records == records
      modifies this, history
      ensures Valid() && model == DoWriteHistory(old(model), c)
      ensures model.callers[c].phase == Publishing(PhaseOf(old(model), c).round, Records(stored))
      ensures history.log == old(history.log) + records
    {
      ghost var t := DoWriteHistory(model, c);
      WriteStep(model, c);
      WriteKeepsInv(model, c);
      stored := InsertAll(records);
      model := t;
    }

    /** Under the slot's lock: move the deadline, send the result, clear the slot. */
    method Publish(ghost c: CallerId, kind: ProbeKind, r: nat, result: Shared)
      requires Valid() && CanPublish(model, c)
      requires model.callers[c].kind == kind && PhaseOf(model, c) == Publishing(r, result)
      modifies this
      ensures Valid() && model == DoPublish(old(model), c)
    {
      StepInv(model, Step.Publish(c));
      model := DoPublish(model, c);
      slots := slots[kind := slots[kind].(next := Some(now + interval), version := slots[kind].version + 1)];
      channels := channels[r := channels[r].(value := Some(result))];
      slots := slots[kind := slots[kind].(running := None)];
    }

    /** The leader returns: its sender goes out of scope. */
    method Return(ghost c: CallerId, r: nat)
      requires Valid() && CanReturn(model, c) && PhaseOf(model, c).round == r
      modifies this
      ensures Valid() && model == DoReturn(old(model), c)
    {
      StepInv(model, Step.Return(c));
      model := DoReturn(model, c);
      channels := channels[r := channels[r].(open := false)];
    }

    /** A follower looks at its channel. */
    method Read(ghost c: CallerId, r: nat) returns (value: Option<Shared>)
      requires Valid() && CanRead(model, c) && PhaseOf(model, c).round == r
      modifies this`model
      ensures Valid() && model == DoRead(old(model), c)
      ensures match value
              case Some(shared) => model.callers[c].phase == Done(r, Got(shared))
              case None => model.callers[c].phase.Waiting?
    {
      StepInv(model, Step.Read(c));
      model := DoRead(model, c);
      value := channels[r].value;
    }

    /** A waiting follower wakes up: to look again, or because the sender is gone. */
    method Wake(ghost c: CallerId, r: nat, seen: nat) returns (changed: bool)
      requires Valid() && CanWake(model, c) && PhaseOf(model, c) == Waiting(r, seen)
      modifies this`model
      ensures Valid() && model == DoWake(old(model), c)
      ensures model.callers[c].phase == if changed then Reading(r) else Done(r, Cancelled)
    {
      StepInv(model, Step.Wake(c));
      model := DoWake(model, c);
      changed := (if channels[r].value.Some? then 1 else 0) != seen;
    }

    /** A caller is dropped at an await point; `sender` says that it held the round's sender. */
    method Cancel(ghost c: CallerId, r: nat, sender: bool)
      requires Valid() && CanCancel(model, c)
      requires PhaseOf(model, c).round == r && sender == PhaseOf(model, c).Leads()
      modifies this
      ensures Valid() && model == DoCancel(old(model), c)
    {
      StepInv(model, Step.Cancel(c));
      model := DoCancel(model, c);
      if sender {
        channels := channels[r := channels[r].(open := false)];
      }
    }

    method Tick(time: nat)
      requires Valid() && now <= time
      modifies this
      ensures Valid() && model == old(model).(now := time)
    {
      StepInv(model, Step.Tick(time));
      model := model.(now := time);
      now := time;
    }
  }
}
