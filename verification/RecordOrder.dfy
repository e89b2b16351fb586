/** Key order of the series map, and the stable sort a query applies. */
module RecordOrder {
  import opened Prelude
  import opened Protocol
  import opened HistoryLog

  // ---------------------------------------------------------------- order of keys

  function Rank(kind: ProbeKind): nat {
    match kind
    case Host => 0
    case Lan => 1
    case Wan => 2
    case Services => 3
    case Peers => 4
  }

  /** The kinds as declared: the position decides their order. */
  const DECLARED: seq<ProbeKind> := [Host, Lan, Wan, Services, Peers]

  predicate TextBelow(a: string, b: string) {
    b != [] && (a == [] || a[0] < b[0] || (a[0] == b[0] && TextBelow(a[1..], b[1..])))
  }

  /** Lexicographic on kind, method and target. */
  predicate Below(a: Key, b: Key) {
    || Rank(a.kind) < Rank(b.kind)
    || (a.kind == b.kind && TextBelow(a.methodName, b.methodName))
    || (a.kind == b.kind && a.methodName == b.methodName && TextBelow(a.target, b.target))
  }

  /** The texts agree up to `k`, where `a` ends or has the smaller character. */
  predicate BelowAt(a: string, b: string, k: nat) {
    k <= |a| && k < |b| && a[..k] == b[..k] && (k == |a| || a[k] < b[k])
  }

  lemma {:induction false} TextBelowIsLexicographic(a: string, b: string)
    ensures TextBelow(a, b) <==> exists k: nat :: BelowAt(a, b, k)
  {
    if a != [] && b != [] && a[0] == b[0] {
      TextBelowIsLexicographic(a[1..], b[1..]);
      assert a == [a[0]] + a[1..] && b == [b[0]] + b[1..];
      if k: nat :| BelowAt(a[1..], b[1..], k) {
        assert a[..k + 1] == [a[0]] + a[1..][..k] && b[..k + 1] == [b[0]] + b[1..][..k];
        assert BelowAt(a, b, k + 1);
      }
      if k: nat :| BelowAt(a, b, k) {
        assert k > 0;
        assert a[1..][..k - 1] == a[1..k] && b[1..][..k - 1] == b[1..k];
        assert a[..k][1..] == a[1..k] && b[..k][1..] == b[1..k];
        assert BelowAt(a[1..], b[1..], k - 1);
      }
    } else if b != [] && (a == [] || a[0] < b[0]) {
      assert BelowAt(a, b, 0);
    }
  }

  /** Keys are compared by kind, then method, then target: what differs first decides. */
  lemma KeyOrder(a: Key, b: Key)
    ensures a.kind != b.kind ==>
              (Below(a, b) <==> exists i, j :: 0 <= i < j < 5 && DECLARED[i] == a.kind && DECLARED[j] == b.kind)
    ensures a.kind == b.kind && a.methodName != b.methodName ==>
              (Below(a, b) <==> exists k: nat :: BelowAt(a.methodName, b.methodName, k))
    ensures a.kind == b.kind && a.methodName == b.methodName ==>
              (Below(a, b) <==> exists k: nat :: BelowAt(a.target, b.target, k))
  {
    var i := Rank(a.kind);
    var j := Rank(b.kind);
    assert DECLARED[i] == a.kind && DECLARED[j] == b.kind;
    TextTrichotomy(a.methodName, b.methodName);
    TextBelowIsLexicographic(a.methodName, b.methodName);
    TextBelowIsLexicographic(a.target, b.target);
  }

  lemma {:induction false} TextTrichotomy(a: string, b: string)
    ensures a == b || TextBelow(a, b) || TextBelow(b, a)
    ensures !(TextBelow(a, b) && TextBelow(b, a))
    ensures !TextBelow(a, a)
  {
    if a != [] && b != [] {
      TextTrichotomy(a[1..], b[1..]);
      TextTrichotomy(a[1..], a[1..]);
      assert a == [a[0]] + a[1..] && b == [b[0]] + b[1..];
    } else if a != [] {
      TextTrichotomy(a[1..], a[1..]);
    }
  }

  lemma {:induction false} TextTransitive(a: string, b: string, c: string)
    requires TextBelow(a, b) && TextBelow(b, c)
    ensures TextBelow(a, c)
  {
    if a != [] && a[0] == b[0] == c[0] {
      TextTransitive(a[1..], b[1..], c[1..]);
    }
  }

  lemma KeyTrichotomy(a: Key, b: Key)
    ensures a == b || Below(a, b) || Below(b, a)
    ensures !Below(a, a)
  {
    TextTrichotomy(a.methodName, b.methodName);
    TextTrichotomy(a.target, b.target);
    TextTrichotomy(a.methodName, a.methodName);
    TextTrichotomy(a.target, a.target);
  }

  lemma KeyTransitive(a: Key, b: Key, c: Key)
    requires Below(a, b) && Below(b, c)
    ensures Below(a, c)
  {
    if a.kind == b.kind == c.kind {
      if TextBelow(a.methodName, b.methodName) && TextBelow(b.methodName, c.methodName) {
        TextTransitive(a.methodName, b.methodName, c.methodName);
      }
      if TextBelow(a.target, b.target) && TextBelow(b.target, c.target) {
        TextTransitive(a.target, b.target, c.target);
      }
    }
  }

  predicate Increasing(keys: seq<Key>) {
    forall i, j :: 0 <= i < j < |keys| ==> Below(keys[i], keys[j])
  }

  /** Adds a key to an increasing list, unless it is there already. */
  function InsertKey(keys: seq<Key>, key: Key): seq<Key> {
    if keys == [] then [key]
    else
      var last := keys[|keys| - 1];
      if last == key then keys
      else if Below(last, key) then keys + [key]
      else InsertKey(keys[..|keys| - 1], key) + [last]
  }

  lemma {:induction false} InsertKeyMembers(keys: seq<Key>, key: Key, other: Key)
    ensures other in InsertKey(keys, key) <==> other in keys || other == key
  {
    if keys != [] && keys[|keys| - 1] != key && !Below(keys[|keys| - 1], key) {
      InsertKeyMembers(keys[..|keys| - 1], key, other);
      assert keys == keys[..|keys| - 1] + [keys[|keys| - 1]];
    }
  }

  lemma {:induction false} InsertKeyIncreasing(keys: seq<Key>, key: Key)
    requires Increasing(keys)
    ensures Increasing(InsertKey(keys, key))
  {
    if keys != [] && keys[|keys| - 1] != key {
      var front, last := keys[..|keys| - 1], keys[|keys| - 1];
      KeyTrichotomy(last, key);
      if Below(last, key) {
        forall i | 0 <= i < |front| ensures Below(keys[i], key) {
          KeyTransitive(keys[i], last, key);
        }
      } else {
        InsertKeyIncreasing(front, key);
        forall other | other in InsertKey(front, key) ensures Below(other, last) {
          InsertKeyMembers(front, key, other);
        }
      }
    }
  }

  /** The keys that occur in the log, in the order a sorted map iterates over them. */
  function KeysOf(log: seq<Record>): seq<Key> {
    if log == [] then [] else InsertKey(KeysOf(log[..|log| - 1]), KeyOf(log[|log| - 1]))
  }

  lemma {:induction false} KeysOfIncreasing(log: seq<Record>)
    ensures Increasing(KeysOf(log))
  {
    if log != [] {
      KeysOfIncreasing(log[..|log| - 1]);
      InsertKeyIncreasing(KeysOf(log[..|log| - 1]), KeyOf(log[|log| - 1]));
    }
  }

  // ---------------------------------------------------------------- filters

  predicate KindAsked(kind: Option<ProbeKind>, key: Key) {
    kind.None? || kind.value == key.kind
  }

  predicate Matches(r: Record, about: Option<string>) {
    about.None? || r.target == about.value || r.labelName == Some(about.value)
  }

  function About(s: seq<Record>, about: Option<string>): seq<Record> {
    if s == [] then []
    else
      var rest := About(s[..|s| - 1], about);
      if Matches(s[|s| - 1], about) then rest + [s[|s| - 1]] else rest
  }

  /** The records observed at time `t`, in their order. */
  function AtTime(s: seq<Record>, t: u64): seq<Record> {
    if s == [] then []
    else
      var rest := AtTime(s[..|s| - 1], t);
      if s[|s| - 1].observedAt == t then rest + [s[|s| - 1]] else rest
  }

  // ---------------------------------------------------------------- stable sort

  predicate Sorted(s: seq<Record>) {
    forall i, j :: 0 <= i < j < |s| ==> s[i].observedAt <= s[j].observedAt
  }

  /** Sorted by observation time, and records observed together keep their order. */
  ghost predicate IsStableSortOf(sorted: seq<Record>, s: seq<Record>) {
    && Sorted(sorted)
    && forall t :: AtTime(sorted, t) == AtTime(s, t)
  }

  /** Places `r` behind every record observed no later than it. */
  function InsertByTime(s: seq<Record>, r: Record): seq<Record> {
    if s == [] || s[|s| - 1].observedAt <= r.observedAt then s + [r]
    else InsertByTime(s[..|s| - 1], r) + [s[|s| - 1]]
  }

  function StableSort(s: seq<Record>): seq<Record> {
    if s == [] then [] else InsertByTime(StableSort(s[..|s| - 1]), s[|s| - 1])
  }

  lemma AtTimeSnoc(s: seq<Record>, r: Record, t: u64)
    ensures AtTime(s + [r], t) == if r.observedAt == t then AtTime(s, t) + [r] else AtTime(s, t)
  {
    SnocOf(s, r);
  }

  lemma {:induction false} InsertByTimeContents(s: seq<Record>, r: Record)
    ensures multiset(InsertByTime(s, r)) == multiset(s) + multiset{r}
  {
    if s != [] && s[|s| - 1].observedAt > r.observedAt {
      InsertByTimeContents(s[..|s| - 1], r);
      assert s == s[..|s| - 1] + [s[|s| - 1]];
    }
  }

  lemma InsertByTimeMembers(s: seq<Record>, r: Record, x: Record)
    requires x in InsertByTime(s, r)
    ensures x in s || x == r
  {
    InsertByTimeContents(s, r);
    assert x in multiset(InsertByTime(s, r));
  }

  lemma {:induction false} InsertByTimeSorted(s: seq<Record>, r: Record)
    requires Sorted(s)
    ensures Sorted(InsertByTime(s, r))
  {
    if s != [] && s[|s| - 1].observedAt > r.observedAt {
      var front := s[..|s| - 1];
      InsertByTimeSorted(front, r);
      forall x | x in InsertByTime(front, r) ensures x.observedAt <= s[|s| - 1].observedAt {
        InsertByTimeMembers(front, r, x);
      }
    }
  }

  /** The new record lands behind its ties, so every time slice grows at its end only. */
  lemma {:induction false} InsertByTimeKeepsTies(s: seq<Record>, r: Record, t: u64)
    requires Sorted(s)
    ensures AtTime(InsertByTime(s, r), t) == AtTime(s + [r], t)
  {
    AtTimeSnoc(s, r, t);
    if s != [] && s[|s| - 1].observedAt > r.observedAt {
      var front, last := s[..|s| - 1], s[|s| - 1];
      InsertByTimeKeepsTies(front, r, t);
      AtTimeSnoc(front, r, t);
      AtTimeSnoc(InsertByTime(front, r), last, t);
    }
  }

  lemma {:induction false} StableSortSorts(s: seq<Record>)
    ensures Sorted(StableSort(s))
  {
    if s != [] {
      StableSortSorts(s[..|s| - 1]);
      InsertByTimeSorted(StableSort(s[..|s| - 1]), s[|s| - 1]);
    }
  }

  lemma {:induction false} StableSortContents(s: seq<Record>)
    ensures multiset(StableSort(s)) == multiset(s)
  {
    if s != [] {
      StableSortContents(s[..|s| - 1]);
      InsertByTimeContents(StableSort(s[..|s| - 1]), s[|s| - 1]);
      assert s == s[..|s| - 1] + [s[|s| - 1]];
    }
  }

  lemma {:induction false} StableSortKeepsTies(s: seq<Record>, t: u64)
    ensures AtTime(StableSort(s), t) == AtTime(s, t)
  {
    if s != [] {
      var front, last := s[..|s| - 1], s[|s| - 1];
      StableSortSorts(front);
      StableSortKeepsTies(front, t);
      InsertByTimeKeepsTies(StableSort(front), last, t);
      AtTimeSnoc(StableSort(front), last, t);
    }
  }

  lemma {:induction false} AtTimeNonempty(s: seq<Record>, t: u64)
    requires AtTime(s, t) != []
    ensures exists i :: 0 <= i < |s| && s[i].observedAt == t
  {
    if s[|s| - 1].observedAt != t {
      AtTimeNonempty(s[..|s| - 1], t);
    }
  }

  lemma LatestHasTie(s: seq<Record>, r: Record)
    requires Sorted(s) && AtTime(s, r.observedAt) != []
    ensures s != [] && r.observedAt <= s[|s| - 1].observedAt
  {
    AtTimeNonempty(s, r.observedAt);
  }

  /** Order and stability leave one possible result, so any stable sort computes this one. */
  lemma {:induction false} StableSortUnique(a: seq<Record>, b: seq<Record>)
    requires Sorted(a) && Sorted(b)
    requires forall t :: AtTime(a, t) == AtTime(b, t)
    ensures a == b
    decreases |a|
  {
    var latest: u64 := if b == [] then 0 else b[|b| - 1].observedAt;
    assert AtTime(a, latest) == AtTime(b, latest);
    if a != [] {
      var x := a[|a| - 1];
      assert AtTime(a, x.observedAt) == AtTime(b, x.observedAt);
      LatestHasTie(b, x);
      var y := b[|b| - 1];
      assert AtTime(a, y.observedAt) == AtTime(b, y.observedAt);
      LatestHasTie(a, y);
      var af, bf := a[..|a| - 1], b[..|b| - 1];
      assert a == af + [x] && b == bf + [y];
      AtTimeSnoc(af, x, x.observedAt);
      AtTimeSnoc(bf, y, x.observedAt);
      assert x == y by {
        assert (AtTime(af, x.observedAt) + [x])[|AtTime(af, x.observedAt)|] == x;
        assert (AtTime(bf, x.observedAt) + [y])[|AtTime(bf, x.observedAt)|] == y;
      }
      forall t: u64 ensures AtTime(af, t) == AtTime(bf, t) {
        assert AtTime(a, t) == AtTime(b, t);
        AtTimeSnoc(af, x, t);
        AtTimeSnoc(bf, x, t);
        if t == x.observedAt {
          assert (AtTime(af, t) + [x])[..|AtTime(a, t)| - 1] == AtTime(af, t);
          assert (AtTime(bf, t) + [x])[..|AtTime(b, t)| - 1] == AtTime(bf, t);
        }
      }
      StableSortUnique(af, bf);
    }
  }

  lemma StableSortIsTheOne(s: seq<Record>)
    ensures IsStableSortOf(StableSort(s), s)
    ensures forall other :: IsStableSortOf(other, s) ==> other == StableSort(s)
  {
    StableSortSorts(s);
    forall t ensures AtTime(StableSort(s), t) == AtTime(s, t) {
      StableSortKeepsTies(s, t);
    }
    forall other | IsStableSortOf(other, s) ensures other == StableSort(s) {
      StableSortUnique(other, StableSort(s));
    }
  }

  /** Cutting a sorted sequence leaves nothing before the cut newer than what follows. */
  lemma SortedSplit(s: seq<Record>, n: nat)
    requires Sorted(s) && n <= |s|
    ensures Sorted(s[n..])
    ensures forall x, y :: x in s[..n] && y in s[n..] ==> x.observedAt <= y.observedAt
  {}

  lemma SameContentsSameLength(a: seq<Record>, b: seq<Record>)
    requires multiset(a) == multiset(b)
    ensures |a| == |b|
  {
    assert |multiset(a)| == |multiset(b)|;
  }
}
