/** The bounded in-memory history, proved to be a window on the unbounded log. */
module History {
  import opened Prelude
  import opened Protocol
  import opened HistoryLog
  import opened RecordOrder

  /** `lastSuccessAt` survives eviction of the record it came from. */
  datatype Series = Series(records: seq<Record>, lastSuccessAt: Option<u64>)

  const EMPTY_SERIES: Series := Series([], None)

  /** What a series of the given capacity holds once `log` has been inserted. */
  ghost function Retained(log: seq<Record>, capacity: nat, key: Key): Series {
    Series(LastN(OfKey(Annotated(log), key), capacity), LastSuccess(log, key))
  }

  /** What one series contributes to a query: all its matching retained records, in order. */
  ghost function Share(
      log: seq<Record>, capacity: nat, key: Key, kind: Option<ProbeKind>, about: Option<string>): seq<Record>
  {
    if KindAsked(kind, key) then About(Retained(log, capacity, key).records, about) else []
  }

  /** Retained records that a query asks about, series by series in key order. */
  ghost function Candidates(
      log: seq<Record>, capacity: nat, keys: seq<Key>, kind: Option<ProbeKind>, about: Option<string>)
    : seq<Record>
  {
    if keys == [] then []
    else
      var key := keys[|keys| - 1];
      Candidates(log, capacity, keys[..|keys| - 1], kind, about) + Share(log, capacity, key, kind, about)
  }

  /** The answer to a query, in terms of the log alone. */
  ghost function Answer(
      log: seq<Record>, capacity: nat, kind: Option<ProbeKind>, about: Option<string>, limit: nat)
    : seq<Record>
  {
    LastN(StableSort(Candidates(log, capacity, KeysOf(log), kind, about)), Min(limit, MAX_HISTORY_QUERY))
  }

  /** The bounded series map agrees with the unbounded log. */
  ghost predicate Refines(series: map<Key, Series>, order: seq<Key>, log: seq<Record>, capacity: nat) {
    && order == KeysOf(log)
    && (forall key :: key in series <==> key in order)
    && (forall key :: key in series ==> series[key] == Retained(log, capacity, key))
  }

  class History {
    const capacity: nat
    var series: map<Key, Series>
    /** The map's keys in iteration order. */
    var order: seq<Key>
    /** Every record ever inserted, as it was handed over. */
    ghost var log: seq<Record>

    ghost predicate Valid()
      reads this
    {
      capacity >= 1 && Refines(series, order, log, capacity)
    }

    constructor (capacity: nat)
      ensures Valid() && log == []
      ensures this.capacity == if capacity == 0 then 1 else capacity
    {
      this.capacity := if capacity > 1 then capacity else 1;
      series := map[];
      order := [];
      log := [];
    }

    /** Stores `record`, stamped with its series' last success, and says what changed. */
    method Insert(record: Record) returns (stored: Record, transition: Transition)
      requires Valid()
      modifies this
      ensures Valid()
      ensures log == old(log) + [record]
      ensures stored == Annotate(old(log), record)
      ensures transition == TransitionAfter(old(log), record)
    {
      var key := KeyOf(record);
      var entry := if key in series then series[key] else EMPTY_SERIES;
      ghost var before := Retained(log, capacity, key);
      assert entry == before by {
        RefinesEntry(series, order, log, capacity, key);
      }
      var n := |entry.records|;
      if n == 0 {
        transition := First;
      } else if entry.records[n - 1].success && !record.success {
        transition := Failed;
      } else if !entry.records[n - 1].success && record.success {
        transition := Recovered(entry.lastSuccessAt);
      } else {
        transition := Unchanged;
      }
      assert transition == TransitionAfter(log, record) by {
        BackOfRetained(log, capacity, key);
      }
      var lastSuccessAt := if record.success then Some(record.observedAt) else entry.lastSuccessAt;
      stored := record.(lastSuccessAt := lastSuccessAt);
      assert stored == Annotate(log, record) by {
        RetainedSnoc(log, capacity, record);
      }
      var kept := if n == capacity then entry.records[1..] else entry.records;
      assert Refines(series[key := Series(kept + [stored], lastSuccessAt)], InsertKey(order, key),
                     log + [record], capacity) by {
        RetainedSnoc(log, capacity, record);
        RefinesSnoc(series, order, log, capacity, record);
      }
      series := series[key := Series(kept + [stored], lastSuccessAt)];
      order := InsertKey(order, key);
      log := log + [record];
    }

    /** The most recent `limit` matching records, oldest first. */
    method Query(kind: Option<ProbeKind>, about: Option<string>, limit: nat) returns (records: seq<Record>)
      requires Valid()
      ensures records == Answer(log, capacity, kind, about, limit)
    {
      records := Collect(kind, about);
      records := Newest(records, limit);
    }

    static method Newest(matches: seq<Record>, limit: nat) returns (records: seq<Record>)
      ensures records == LastN(StableSort(matches), Min(limit, MAX_HISTORY_QUERY))
    {
      records := StableSort(matches);
      var keep := Min(limit, MAX_HISTORY_QUERY);
      records := records[if |records| < keep then 0 else |records| - keep..];
    }

    method Collect(kind: Option<ProbeKind>, about: Option<string>) returns (records: seq<Record>)
      requires Valid()
      ensures records == Candidates(log, capacity, KeysOf(log), kind, about)
    {
      records := [];
      for i := 0 to |order|
        invariant records == Candidates(log, capacity, order[..i], kind, about)
      {
        var key := order[i];
        assert key in series && series[key] == Retained(log, capacity, key);
        CandidatesStep(log, capacity, order, i, kind, about);
        if KindAsked(kind, key) {
          records := records + About(series[key].records, about);
        }
      }
      assert order[..|order|] == order;
    }
  }

  // ---------------------------------------------------------------- refinement steps

  lemma {:induction false} KeysOfLog(log: seq<Record>, key: Key)
    ensures key in KeysOf(log) <==> OfKey(log, key) != []
  {
    if log != [] {
      var front := log[..|log| - 1];
      KeysOfLog(front, key);
      InsertKeyMembers(KeysOf(front), KeyOf(log[|log| - 1]), key);
    }
  }

  lemma {:induction false} NoSuccessWithoutRecords(log: seq<Record>, key: Key)
    requires OfKey(log, key) == []
    ensures LastSuccess(log, key) == None
  {
    if log != [] {
      NoSuccessWithoutRecords(log[..|log| - 1], key);
    }
  }

  lemma AbsentIsEmpty(log: seq<Record>, capacity: nat, key: Key)
    ensures key !in KeysOf(log) ==> Retained(log, capacity, key) == EMPTY_SERIES
  {
    if key !in KeysOf(log) {
      KeysOfLog(log, key);
      AnnotatedOfKey(log, key);
      NoSuccessWithoutRecords(log, key);
    }
  }

  /** The newest retained record succeeded exactly when the newest logged one did. */
  lemma BackOfRetained(log: seq<Record>, capacity: nat, key: Key)
    requires capacity >= 1
    ensures var kept := Retained(log, capacity, key).records;
            var all := OfKey(log, key);
            && (kept == [] <==> all == [])
            && (all != [] ==> kept[|kept| - 1].success == all[|all| - 1].success)
  {
    AnnotatedOfKey(log, key);
    if OfKey(log, key) != [] {
      LastNEnd(OfKey(Annotated(log), key), capacity);
    }
  }

  lemma CandidatesStep(
      log: seq<Record>, capacity: nat, keys: seq<Key>, i: nat, kind: Option<ProbeKind>, about: Option<string>)
    requires i < |keys|
    ensures Candidates(log, capacity, keys[..i + 1], kind, about) ==
            Candidates(log, capacity, keys[..i], kind, about) + Share(log, capacity, keys[i], kind, about)
  {
    assert keys[..i + 1][..i] == keys[..i];
  }

  /** One insertion pushes onto its own bounded series and leaves the others alone. */
  lemma RetainedSnoc(log: seq<Record>, capacity: nat, r: Record)
    requires capacity >= 1
    ensures forall key :: key != KeyOf(r) ==> Retained(log + [r], capacity, key) == Retained(log, capacity, key)
    ensures var before := Retained(log, capacity, KeyOf(r));
            var kept := if |before.records| == capacity then before.records[1..] else before.records;
            Retained(log + [r], capacity, KeyOf(r)) ==
            Series(kept + [Annotate(log, r)], if r.success then Some(r.observedAt) else before.lastSuccessAt)
    ensures Annotate(log, r).lastSuccessAt ==
            if r.success then Some(r.observedAt) else LastSuccess(log, KeyOf(r))
    ensures KeysOf(log + [r]) == InsertKey(KeysOf(log), KeyOf(r))
  {
    SnocOf(log, r);
    AnnotatedSnoc(log, r);
    forall key {
      OfKeySnoc(Annotated(log), Annotate(log, r), key);
    }
    LastNPush(OfKey(Annotated(log), KeyOf(r)), Annotate(log, r), capacity);
  }

  lemma RefinesEntry(series: map<Key, Series>, order: seq<Key>, log: seq<Record>, capacity: nat, key: Key)
    requires Refines(series, order, log, capacity)
    ensures (if key in series then series[key] else EMPTY_SERIES) == Retained(log, capacity, key)
  {
    AbsentIsEmpty(log, capacity, key);
  }

  lemma RefinesSnoc(series: map<Key, Series>, order: seq<Key>, log: seq<Record>, capacity: nat, r: Record)
    requires capacity >= 1 && Refines(series, order, log, capacity)
    ensures Refines(series[KeyOf(r) := Retained(log + [r], capacity, KeyOf(r))],
                    InsertKey(order, KeyOf(r)), log + [r], capacity)
  {
    RetainedSnoc(log, capacity, r);
    forall other ensures other in InsertKey(order, KeyOf(r)) <==> other in order || other == KeyOf(r) {
      InsertKeyMembers(order, KeyOf(r), other);
    }
  }

  // ---------------------------------------------------------------- what a query answers

  lemma {:induction false} OfKeyConcat(a: seq<Record>, b: seq<Record>, key: Key)
    ensures OfKey(a + b, key) == OfKey(a, key) + OfKey(b, key)
  {
    if b == [] {
      assert a + b == a;
    } else {
      assert a + b == (a + b[..|b| - 1]) + [b[|b| - 1]];
      OfKeySnoc(a + b[..|b| - 1], b[|b| - 1], key);
      OfKeyConcat(a, b[..|b| - 1], key);
    }
  }

  predicate AllOfKey(s: seq<Record>, key: Key) {
    forall r :: r in s ==> KeyOf(r) == key
  }

  lemma {:induction false} OfKeyHasKey(s: seq<Record>, key: Key)
    ensures AllOfKey(OfKey(s, key), key)
  {
    if s != [] {
      OfKeyHasKey(s[..|s| - 1], key);
    }
  }

  lemma {:induction false} AboutKeepsKey(s: seq<Record>, about: Option<string>, key: Key)
    requires AllOfKey(s, key)
    ensures AllOfKey(About(s, about), key)
  {
    if s != [] {
      AboutKeepsKey(s[..|s| - 1], about, key);
    }
  }

  lemma {:induction false} OfKeyOfBlock(s: seq<Record>, key: Key, asked: Key)
    requires AllOfKey(s, key)
    ensures OfKey(s, asked) == if asked == key then s else []
  {
    if s != [] {
      OfKeyOfBlock(s[..|s| - 1], key, asked);
      assert s == s[..|s| - 1] + [s[|s| - 1]];
    }
  }

  lemma BlockHasKey(log: seq<Record>, capacity: nat, key: Key, about: Option<string>)
    ensures AllOfKey(About(Retained(log, capacity, key).records, about), key)
  {
    OfKeyHasKey(Annotated(log), key);
    AboutKeepsKey(Retained(log, capacity, key).records, about, key);
  }

  lemma ShareOfKey(
      log: seq<Record>, capacity: nat, owner: Key, kind: Option<ProbeKind>, about: Option<string>, key: Key)
    ensures OfKey(Share(log, capacity, owner, kind, about), key) ==
            if key == owner then Share(log, capacity, owner, kind, about) else []
  {
    BlockHasKey(log, capacity, owner, about);
    OfKeyOfBlock(Share(log, capacity, owner, kind, about), owner, key);
  }

  lemma KeysFront(keys: seq<Key>, key: Key)
    requires keys != [] && Increasing(keys)
    ensures var front, last := keys[..|keys| - 1], keys[|keys| - 1];
            && Increasing(front)
            && last !in front
            && (key in keys <==> key in front || key == last)
  {
    var front, last := keys[..|keys| - 1], keys[|keys| - 1];
    assert keys == front + [last];
    KeyTrichotomy(last, last);
  }

  lemma {:induction false} CandidatesOfKeys(
      log: seq<Record>, capacity: nat, keys: seq<Key>, kind: Option<ProbeKind>, about: Option<string>, key: Key)
    requires Increasing(keys)
    ensures OfKey(Candidates(log, capacity, keys, kind, about), key) ==
            if key in keys then Share(log, capacity, key, kind, about) else []
  {
    if keys != [] {
      var front, last := keys[..|keys| - 1], keys[|keys| - 1];
      KeysFront(keys, key);
      CandidatesOfKeys(log, capacity, front, kind, about, key);
      OfKeyConcat(Candidates(log, capacity, front, kind, about), Share(log, capacity, last, kind, about), key);
      ShareOfKey(log, capacity, last, kind, about, key);
    }
  }

  /** `part` is `whole` at the positions `at`, in their order. */
  ghost predicate Picks(part: seq<Record>, whole: seq<Record>, at: seq<nat>) {
    && |at| == |part|
    && (forall i :: 0 <= i < |at| ==> at[i] < |whole| && part[i] == whole[at[i]])
    && (forall i, j :: 0 <= i < j < |at| ==> at[i] < at[j])
  }

  lemma {:induction false} AboutPicks(s: seq<Record>, about: Option<string>) returns (at: seq<nat>)
    ensures Picks(About(s, about), s, at)
    ensures forall k: nat :: k < |s| ==>
              (k in at <==> about.None? || s[k].target == about.value || s[k].labelName == Some(about.value))
  {
    if s == [] {
      at := [];
    } else {
      var last: nat := |s| - 1;
      at := AboutPicks(s[..last], about);
      if about.None? || s[last].target == about.value || s[last].labelName == Some(about.value) {
        at := at + [last];
      }
    }
  }

  /**
   A query's candidates of one series are exactly its retained records of the kind
   asked for whose target or label is asked about, each once and in their order.
   */
  lemma CandidatesAreExact(
      log: seq<Record>, capacity: nat, kind: Option<ProbeKind>, about: Option<string>, key: Key)
    returns (at: seq<nat>)
    ensures var kept := Retained(log, capacity, key).records;
            && Picks(OfKey(Candidates(log, capacity, KeysOf(log), kind, about), key), kept, at)
            && forall k: nat :: k < |kept| ==>
                 (k in at <==>
                    && (kind.None? || kind.value == key.kind)
                    && (about.None? || kept[k].target == about.value || kept[k].labelName == Some(about.value)))
  {
    KeysOfIncreasing(log);
    CandidatesOfKeys(log, capacity, KeysOf(log), kind, about, key);
    AbsentIsEmpty(log, capacity, key);
    at := [];
    if kind.None? || kind.value == key.kind {
      at := AboutPicks(Retained(log, capacity, key).records, about);
    }
  }

  predicate KeysWithin(s: seq<Record>, keys: seq<Key>) {
    forall i :: 0 <= i < |s| ==> KeyOf(s[i]) in keys
  }

  /** Series follow each other in key order, each in one block. */
  predicate InKeyOrder(s: seq<Record>) {
    forall i, j :: 0 <= i < j < |s| ==> KeyOf(s[i]) == KeyOf(s[j]) || Below(KeyOf(s[i]), KeyOf(s[j]))
  }

  lemma BlockFollows(s: seq<Record>, keys: seq<Key>, block: seq<Record>, key: Key)
    requires KeysWithin(s, keys) && InKeyOrder(s) && Increasing(keys + [key]) && AllOfKey(block, key)
    ensures KeysWithin(s + block, keys + [key]) && InKeyOrder(s + block)
  {
    forall other | other in keys ensures Below(other, key) {
      var i :| 0 <= i < |keys| && keys[i] == other;
      assert (keys + [key])[i] == other && (keys + [key])[|keys|] == key;
    }
  }

  lemma {:induction false} CandidatesOrdered(
      log: seq<Record>, capacity: nat, keys: seq<Key>, kind: Option<ProbeKind>, about: Option<string>)
    requires Increasing(keys)
    ensures KeysWithin(Candidates(log, capacity, keys, kind, about), keys)
    ensures InKeyOrder(Candidates(log, capacity, keys, kind, about))
  {
    if keys != [] {
      var front, last := keys[..|keys| - 1], keys[|keys| - 1];
      assert keys == front + [last];
      CandidatesOrdered(log, capacity, front, kind, about);
      BlockHasKey(log, capacity, last, about);
      BlockFollows(Candidates(log, capacity, front, kind, about), front, Share(log, capacity, last, kind, about), last);
    }
  }

  /** `answer` is the newest end of `sorted`, a rearrangement of `all`. */
  ghost predicate IsNewest(answer: seq<Record>, omitted: seq<Record>, all: seq<Record>, keep: nat) {
    && |answer| == (if keep <= |all| then keep else |all|)
    && Sorted(answer)
    && multiset(omitted) + multiset(answer) == multiset(all)
    && (forall x, y :: x in omitted && y in answer ==> x.observedAt <= y.observedAt)
  }

  lemma NewestOfSorted(sorted: seq<Record>, all: seq<Record>, keep: nat)
    returns (omitted: seq<Record>)
    requires Sorted(sorted) && multiset(sorted) == multiset(all)
    ensures IsNewest(LastN(sorted, keep), omitted, all, keep)
    ensures sorted == omitted + LastN(sorted, keep)
  {
    SameContentsSameLength(sorted, all);
    var n := |sorted| - |LastN(sorted, keep)|;
    omitted := sorted[..n];
    SortedSplit(sorted, n);
    assert sorted == omitted + LastN(sorted, keep);
    assert multiset(sorted) == multiset(omitted) + multiset(LastN(sorted, keep));
  }

  /**
   A query returns the newest end of the one stable ordering by observation time:
   as many records as asked for and available, none of the omitted ones newer than
   a returned one, and ties in series order and then insertion order.
   */
  lemma AnswerIsMostRecent(
      log: seq<Record>, capacity: nat, kind: Option<ProbeKind>, about: Option<string>, limit: nat)
    returns (omitted: seq<Record>)
    ensures var all := Candidates(log, capacity, KeysOf(log), kind, about);
            var answer := Answer(log, capacity, kind, about, limit);
            && IsNewest(answer, omitted, all, if limit <= 1000 then limit else 1000)
            && IsStableSortOf(omitted + answer, all)
    ensures var all := Candidates(log, capacity, KeysOf(log), kind, about);
            InKeyOrder(all) &&
            forall sorted :: IsStableSortOf(sorted, all) ==>
              Answer(log, capacity, kind, about, limit) == LastN(sorted, Min(limit, MAX_HISTORY_QUERY))
  {
    var all := Candidates(log, capacity, KeysOf(log), kind, about);
    StableSortIsTheOne(all);
    StableSortContents(all);
    omitted := NewestOfSorted(StableSort(all), all, Min(limit, MAX_HISTORY_QUERY));
    KeysOfIncreasing(log);
    CandidatesOrdered(log, capacity, KeysOf(log), kind, about);
  }
}
