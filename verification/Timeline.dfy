/**
 The event timeline: which records become log events. Per series it is a
 lossless run-length encoding of the success flags.
 */
module Timeline {
  import opened Prelude
  import opened Protocol
  import opened HistoryLog

  datatype Event =
    | CheckOk
    | CheckFailed
    | CheckRecovered(sinceLastOk: Option<u64>)
    | Quiet // debug level, not part of the timeline

  function SaturatingSub(a: u64, b: u64): u64 {
    if a <= b then 0 else a - b
  }

  function Log(record: Record, transition: Transition): Event {
    match (transition, record.success)
    case (First, true) => CheckOk
    case (First, false) => CheckFailed
    case (Failed, false) => CheckFailed
    case (Recovered(None), _) => CheckRecovered(None)
    case (Recovered(Some(at)), _) => CheckRecovered(Some(SaturatingSub(record.observedAt, at)))
    case _ => Quiet
  }

  datatype Entry = Entry(key: Key, event: Event)

  /** The events of a whole log, over all series, in insertion order. */
  function Entries(log: seq<Record>): (entries: seq<Entry>)
    ensures |entries| == |log|
  {
    if log == [] then []
    else
      var front, last := log[..|log| - 1], log[|log| - 1];
      Entries(front) + [Entry(KeyOf(last), Log(Annotate(front, last), TransitionAfter(front, last)))]
  }

  function EventsOfKey(entries: seq<Entry>, key: Key): seq<Event> {
    if entries == [] then []
    else
      var rest := EventsOfKey(entries[..|entries| - 1], key);
      if entries[|entries| - 1].key == key then rest + [entries[|entries| - 1].event] else rest
  }

  lemma EntriesSnoc(log: seq<Record>, r: Record)
    ensures Entries(log + [r]) ==
            Entries(log) + [Entry(KeyOf(r), Log(Annotate(log, r), TransitionAfter(log, r)))]
  {
    SnocOf(log, r);
  }

  // ---------------------------------------------------------------- one series

  function Flags(rs: seq<Record>): (flags: seq<bool>)
    ensures |flags| == |rs|
    ensures forall i :: 0 <= i < |rs| ==> flags[i] == rs[i].success
  {
    seq(|rs|, i requires 0 <= i < |rs| => rs[i].success)
  }

  function LastOk(rs: seq<Record>): Option<u64> {
    if rs == [] then None
    else if rs[|rs| - 1].success then Some(rs[|rs| - 1].observedAt)
    else LastOk(rs[..|rs| - 1])
  }

  /** The event of one record, from what its series holds before it. */
  function NextEvent(before: seq<Record>, r: Record): Event {
    if before == [] then if r.success then CheckOk else CheckFailed
    else if before[|before| - 1].success == r.success then Quiet
    else if !r.success then CheckFailed
    else match LastOk(before)
         case None => CheckRecovered(None)
         case Some(at) => CheckRecovered(Some(SaturatingSub(r.observedAt, at)))
  }

  /** The events of one series from its own records only. */
  function SeriesEvents(rs: seq<Record>): (events: seq<Event>)
    ensures |events| == |rs|
  {
    if rs == [] then []
    else
      SeriesEvents(rs[..|rs| - 1]) + [NextEvent(rs[..|rs| - 1], rs[|rs| - 1])]
  }

  lemma {:induction false} LastSuccessIsLastOk(log: seq<Record>, key: Key)
    ensures LastSuccess(log, key) == LastOk(OfKey(log, key))
  {
    if log != [] {
      var front := log[..|log| - 1];
      LastSuccessIsLastOk(front, key);
      SnocOf(OfKey(front, key), log[|log| - 1]);
    }
  }

  lemma EventOfRecord(log: seq<Record>, r: Record)
    ensures Log(Annotate(log, r), TransitionAfter(log, r)) == NextEvent(OfKey(log, KeyOf(r)), r)
  {
    LastSuccessIsLastOk(log, KeyOf(r));
  }

  /** Series do not disturb each other's events, however their insertions interleave. */
  lemma {:induction false} EventsAreSeparable(log: seq<Record>, key: Key)
    ensures EventsOfKey(Entries(log), key) == SeriesEvents(OfKey(log, key))
  {
    if log != [] {
      var front, last := log[..|log| - 1], log[|log| - 1];
      EventsAreSeparable(front, key);
      assert Entries(log)[..|log| - 1] == Entries(front);
      EventOfRecord(front, last);
      SnocOf(OfKey(front, key), last);
    }
  }

  // ---------------------------------------------------------------- run-length encoding

  /** Reads the flags back from event positions: silence repeats the previous flag. */
  function Replay(events: seq<Event>): (flags: seq<bool>)
    ensures |flags| == |events|
  {
    if events == [] then []
    else
      var before := Replay(events[..|events| - 1]);
      before + [match events[|events| - 1]
                case CheckOk => true
                case CheckRecovered(_) => true
                case CheckFailed => false
                case Quiet => before != [] && before[|before| - 1]]
  }

  function Loud(events: seq<Event>): seq<Event> {
    if events == [] then []
    else
      var rest := Loud(events[..|events| - 1]);
      if events[|events| - 1].Quiet? then rest else rest + [events[|events| - 1]]
  }

  /** The number of maximal runs of equal flags. */
  function Runs(flags: seq<bool>): nat {
    if flags == [] then 0
    else
      var front := flags[..|flags| - 1];
      if front != [] && front[|front| - 1] == flags[|flags| - 1] then Runs(front) else Runs(front) + 1
  }

  /** Failures and successes take turns; only the first event can be a first success. */
  predicate Alternates(events: seq<Event>) {
    && (forall i :: 0 <= i < |events| ==> !events[i].Quiet?)
    && (forall i :: 0 < i < |events| ==> events[i].CheckFailed? != events[i - 1].CheckFailed?)
    && (forall i :: 0 <= i < |events| ==>
          && (events[i].CheckOk? ==> i == 0)
          && (events[i].CheckRecovered? ==> i > 0))
  }

  lemma FlagsFront(rs: seq<Record>)
    requires rs != []
    ensures Flags(rs)[..|rs| - 1] == Flags(rs[..|rs| - 1])
  {}

  lemma SeriesEventsFront(rs: seq<Record>)
    requires rs != []
    ensures SeriesEvents(rs)[..|rs| - 1] == SeriesEvents(rs[..|rs| - 1])
  {}

  /** Replaying the events gives back every success flag. */
  lemma {:induction false} ReplayRebuildsFlags(rs: seq<Record>)
    ensures Replay(SeriesEvents(rs)) == Flags(rs)
  {
    if rs != [] {
      ReplayRebuildsFlags(rs[..|rs| - 1]);
      FlagsFront(rs);
      SeriesEventsFront(rs);
    }
  }

  /** One event per maximal run of equal flags. */
  lemma {:induction false} OneEventPerRun(rs: seq<Record>)
    ensures |Loud(SeriesEvents(rs))| == Runs(Flags(rs))
  {
    if rs != [] {
      OneEventPerRun(rs[..|rs| - 1]);
      FlagsFront(rs);
      SeriesEventsFront(rs);
    }
  }

  lemma AlternatesPush(events: seq<Event>, e: Event)
    requires Alternates(events) && !e.Quiet?
    requires events == [] ==> !e.CheckRecovered?
    requires events != [] ==> !e.CheckOk? && e.CheckFailed? != events[|events| - 1].CheckFailed?
    ensures Alternates(events + [e])
  {}

  lemma {:induction false} EventsAlternate(rs: seq<Record>)
    ensures Alternates(Loud(SeriesEvents(rs)))
    ensures var loud := Loud(SeriesEvents(rs));
            rs != [] ==> loud != [] && (loud[|loud| - 1].CheckFailed? <==> !rs[|rs| - 1].success)
  {
    if rs != [] {
      EventsAlternate(rs[..|rs| - 1]);
      SeriesEventsFront(rs);
      var e := SeriesEvents(rs)[|rs| - 1];
      if !e.Quiet? {
        AlternatesPush(Loud(SeriesEvents(rs[..|rs| - 1])), e);
      }
    }
  }

  /**
   The timeline of every series, cut out of the whole interleaved log: its events
   rebuild each success flag, there is one per maximal run, and they alternate.
   */
  lemma TimelineIsRunLengthEncoding(log: seq<Record>, key: Key)
    ensures var events := EventsOfKey(Entries(log), key);
            var flags := Flags(OfKey(log, key));
            && Replay(events) == flags
            && |Loud(events)| == Runs(flags)
            && Alternates(Loud(events))
  {
    EventsAreSeparable(log, key);
    var rs := OfKey(log, key);
    ReplayRebuildsFlags(rs);
    OneEventPerRun(rs);
    EventsAlternate(rs);
  }

  // ---------------------------------------------------------------- outage bound

  predicate Chronological(rs: seq<Record>) {
    forall i, j :: 0 <= i < j < |rs| ==> rs[i].observedAt <= rs[j].observedAt
  }

  /** The outage that `rs` ends in starts at `first`: failures from there on, a success just before. */
  predicate OutageSince(rs: seq<Record>, first: nat) {
    && first < |rs|
    && (forall i :: first <= i < |rs| ==> !rs[i].success)
    && (first == 0 || rs[first - 1].success)
  }

  lemma {:induction false} OutageStart(rs: seq<Record>) returns (first: nat)
    requires rs != [] && !rs[|rs| - 1].success
    ensures OutageSince(rs, first)
    ensures LastOk(rs) == if first == 0 then None else Some(rs[first - 1].observedAt)
  {
    var front := rs[..|rs| - 1];
    if front == [] || front[|front| - 1].success {
      first := |rs| - 1;
    } else {
      first := OutageStart(front);
    }
  }

  /**
   A reported recovery ends an outage. With timestamps in order the reported time
   bounds the outage from above; it is absent exactly if nothing ever succeeded. It is
   the time since the last success, and never negative.
   */
  lemma RecoveryBoundsOutage(rs: seq<Record>, i: nat)
    returns (first: nat)
    requires i < |rs|
    requires SeriesEvents(rs[..i + 1])[i].CheckRecovered?
    ensures OutageSince(rs[..i], first) && rs[i].success
    ensures var since := SeriesEvents(rs[..i + 1])[i].sinceLastOk;
            && (since.None? <==> first == 0)
            && (since.Some? ==>
                  var lastOk := rs[first - 1].observedAt;
                  since.value == if rs[i].observedAt >= lastOk then rs[i].observedAt - lastOk else 0)
            && (since.Some? && Chronological(rs) ==> since.value >= rs[i].observedAt - rs[first].observedAt)
  {
    assert rs[..i + 1][..i] == rs[..i];
    first := OutageStart(rs[..i]);
  }

  lemma {:induction false} SeriesEventsPrefix(rs: seq<Record>, n: nat)
    requires n <= |rs|
    ensures SeriesEvents(rs)[..n] == SeriesEvents(rs[..n])
  {
    if n == |rs| {
      assert rs[..n] == rs;
    } else {
      var front := rs[..|rs| - 1];
      SeriesEventsPrefix(front, n);
      assert front[..n] == rs[..n];
    }
  }

  /** A recovery is reported exactly where a series' success follows a failure of its own. */
  lemma RecoveryIffOutageEnds(log: seq<Record>, key: Key, i: nat)
    requires i < |OfKey(log, key)|
    ensures i < |EventsOfKey(Entries(log), key)|
    ensures var rs := OfKey(log, key);
            EventsOfKey(Entries(log), key)[i].CheckRecovered? <==> i > 0 && !rs[i - 1].success && rs[i].success
  {
    var rs := OfKey(log, key);
    EventsAreSeparable(log, key);
    SeriesEventsPrefix(rs, i + 1);
    assert SeriesEvents(rs)[i] == SeriesEvents(rs[..i + 1])[i];
    assert rs[..i + 1][..i] == rs[..i];
  }

  /** The same bound, read off the timeline of the whole log. */
  lemma OutageBound(log: seq<Record>, key: Key, i: nat) returns (first: nat)
    requires i < |OfKey(log, key)|
    requires i < |EventsOfKey(Entries(log), key)| && EventsOfKey(Entries(log), key)[i].CheckRecovered?
    ensures var rs := OfKey(log, key);
            var since := EventsOfKey(Entries(log), key)[i].sinceLastOk;
            && OutageSince(rs[..i], first)
            && rs[i].success
            && (since.None? <==> first == 0)
            && (since.Some? ==>
                  var lastOk := rs[first - 1].observedAt;
                  since.value == if rs[i].observedAt >= lastOk then rs[i].observedAt - lastOk else 0)
            && (since.Some? && Chronological(rs) ==> since.value >= rs[i].observedAt - rs[first].observedAt)
  {
    var rs := OfKey(log, key);
    EventsAreSeparable(log, key);
    SeriesEventsPrefix(rs, i + 1);
    assert SeriesEvents(rs)[i] == SeriesEvents(rs)[..i + 1][i];
    first := RecoveryBoundsOutage(rs, i);
  }
}
