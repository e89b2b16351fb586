/**
 What recorded history means, stated on the unbounded log of every record ever
 inserted. The bounded `History.History` is proved to agree with this reading.
 */
module HistoryLog {
  import opened Prelude
  import opened Protocol

  /** Identity of a series. */
  datatype Key = Key(kind: ProbeKind, methodName: string, target: string)

  function KeyOf(r: Record): Key {
    Key(r.kind, r.methodName, r.target)
  }

  /** Records share a series exactly if kind, method and target agree; a label plays no part. */
  lemma SameSeries(a: Record, b: Record)
    ensures KeyOf(a) == KeyOf(b) <==> a.kind == b.kind && a.methodName == b.methodName && a.target == b.target
  {}

  /** How a new record changes its series. */
  datatype Transition =
    | First
    | Failed
    | Recovered(lastSuccessAt: Option<u64>)
    | Unchanged

  /** The records of one series, in insertion order. */
  function OfKey(log: seq<Record>, key: Key): seq<Record> {
    if log == [] then []
    else
      var rest := OfKey(log[..|log| - 1], key);
      if KeyOf(log[|log| - 1]) == key then rest + [log[|log| - 1]] else rest
  }

  /** When the series last recorded a success, over the whole log. */
  function LastSuccess(log: seq<Record>, key: Key): Option<u64> {
    if log == [] then None
    else
      var last := log[|log| - 1];
      if KeyOf(last) == key && last.success then Some(last.observedAt)
      else LastSuccess(log[..|log| - 1], key)
  }

  /** The record as it is stored: it carries its series' last success, itself included. */
  function Annotate(log: seq<Record>, r: Record): Record {
    r.(lastSuccessAt := LastSuccess(log + [r], KeyOf(r)))
  }

  function Annotated(log: seq<Record>): (stored: seq<Record>)
    ensures |stored| == |log|
  {
    if log == [] then []
    else Annotated(log[..|log| - 1]) + [Annotate(log[..|log| - 1], log[|log| - 1])]
  }

  /** The stored form of `batch` when it is inserted after `log`. */
  function Stored(log: seq<Record>, batch: seq<Record>): seq<Record> {
    Annotated(log + batch)[|log|..]
  }

  /** The transition a record causes, judged by the previous record of its series. */
  function TransitionAfter(log: seq<Record>, r: Record): Transition {
    var before := OfKey(log, KeyOf(r));
    if before == [] then First
    else if before[|before| - 1].success && !r.success then Failed
    else if !before[|before| - 1].success && r.success then Recovered(LastSuccess(log, KeyOf(r)))
    else Unchanged
  }

  // ---------------------------------------------------------------- the log grows

  lemma SnocOf(log: seq<Record>, r: Record)
    ensures (log + [r])[..|log + [r]| - 1] == log
    ensures (log + [r])[|log + [r]| - 1] == r
  {}

  lemma OfKeySnoc(log: seq<Record>, r: Record, key: Key)
    ensures OfKey(log + [r], key) ==
            if KeyOf(r) == key then OfKey(log, key) + [r] else OfKey(log, key)
  {
    SnocOf(log, r);
  }

  lemma AnnotatedSnoc(log: seq<Record>, r: Record)
    ensures Annotated(log + [r]) == Annotated(log) + [Annotate(log, r)]
  {
    SnocOf(log, r);
  }

  /** Inserting later records never rewrites what is already stored. */
  lemma {:induction false} AnnotatedPrefix(log: seq<Record>, more: seq<Record>)
    ensures Annotated(log + more)[..|log|] == Annotated(log)
  {
    if more == [] {
      assert log + more == log;
    } else {
      var front := more[..|more| - 1];
      assert log + more == (log + front) + [more[|more| - 1]];
      AnnotatedSnoc(log + front, more[|more| - 1]);
      AnnotatedPrefix(log, front);
    }
  }

  lemma StoredSnoc(log: seq<Record>, batch: seq<Record>, r: Record)
    ensures Stored(log, batch + [r]) == Stored(log, batch) + [Annotate(log + batch, r)]
  {
    assert log + (batch + [r]) == (log + batch) + [r];
    AnnotatedSnoc(log + batch, r);
  }

  /** A stored record differs from the inserted one in its last-success stamp only. */
  lemma {:induction false} StoredKeepsRecords(log: seq<Record>, i: nat)
    requires i < |log|
    ensures Annotated(log)[i] == log[i].(lastSuccessAt := LastSuccess(log[..i + 1], KeyOf(log[i])))
  {
    var front := log[..|log| - 1];
    if i < |front| {
      StoredKeepsRecords(front, i);
      assert front[..i + 1] == log[..i + 1];
    } else {
      assert front + [log[i]] == log[..i + 1];
    }
  }

  /** Keeping one series and stamping it commute, because stamping leaves keys alone. */
  lemma {:induction false} AnnotatedOfKey(log: seq<Record>, key: Key)
    ensures |OfKey(Annotated(log), key)| == |OfKey(log, key)|
    ensures forall i :: 0 <= i < |OfKey(log, key)| ==>
      OfKey(Annotated(log), key)[i].success == OfKey(log, key)[i].success
  {
    if log != [] {
      var front := log[..|log| - 1];
      AnnotatedOfKey(front, key);
      OfKeySnoc(Annotated(front), Annotate(front, log[|log| - 1]), key);
    }
  }

  /** `LastSuccess` is the observation time of the latest success of the series. */
  lemma {:induction false} LastSuccessIsLatest(log: seq<Record>, key: Key)
    ensures LastSuccess(log, key).None? <==>
            forall i :: 0 <= i < |log| && KeyOf(log[i]) == key ==> !log[i].success
    ensures LastSuccess(log, key).Some? ==>
      exists i :: 0 <= i < |log| && KeyOf(log[i]) == key && log[i].success
        && log[i].observedAt == LastSuccess(log, key).value
        && forall j :: i < j < |log| && KeyOf(log[j]) == key ==> !log[j].success
  {
    if log != [] {
      var last := |log| - 1;
      if KeyOf(log[last]) == key && log[last].success {
        assert KeyOf(log[last]) == key && log[last].success;
      } else {
        LastSuccessIsLatest(log[..last], key);
        assert forall i :: 0 <= i < last ==> log[..last][i] == log[i];
      }
    }
  }
}
