/** Bounded command output, and the size of the reply that carries it. */
module ExecReply {
  import opened Prelude
  import opened Protocol
  import opened Codec

  datatype ExecError = BadTimeout | NotSpawned | Expired | TooMuchOutput | BrokenOutput(error: Error) | NotWaited

  /** What the reader makes of a whole output; a failure behind the limit is never seen. */
  function Output(bytes: seq<byte>, failure: Option<Error>): Result<seq<byte>, ExecError> {
    if |bytes| > OUTPUT_LIMIT then Err(TooMuchOutput)
    else if failure.Some? then Err(BrokenOutput(failure.value))
    else Ok(bytes)
  }

  /** Reads to the end, but never more than one byte past the limit. */
  method ReadOutput(source: Source) returns (result: Result<seq<byte>, ExecError>)
    modifies source
    ensures result == Output(old(source.pending), source.failure)
    ensures source.pending == old(source.pending)[Min(|old(source.pending)|, OUTPUT_LIMIT + 1)..]
  {
    var bytes: seq<byte> := [];
    var limit: nat := OUTPUT_LIMIT + 1;
    while limit > 0
      invariant |bytes| + limit == OUTPUT_LIMIT + 1
      invariant old(source.pending) == bytes + source.pending
      decreases limit
    {
      var read := source.Read(limit);
      if read.Err? {
        return Err(BrokenOutput(read.error));
      }
      var chunk := read.value;
      if chunk == [] {
        break;
      }
      bytes := bytes + chunk;
      limit := limit - |chunk|;
    }
    assert old(source.pending)[|bytes|..] == source.pending;
    if |bytes| > OUTPUT_LIMIT {
      return Err(TooMuchOutput);
    }
    assert old(source.pending) == bytes;
    return Ok(bytes);
  }

  datatype ExecResult = ExecResult(
    stdout: seq<byte>,
    stderr: seq<byte>,
    exitCode: Option<i32>,
    signal: Option<i32>,
    durationMs: u64)

  /**
   The shape of a finished command. Whether it can be spawned and waited for, how it
   ends, whether the time limit strikes first, and how long it took come from outside.
   */
  method Execute(
      timeoutSecs: nat, spawned: bool, stdout: Source, stderr: Source,
      waited: bool, exitCode: Option<i32>, signal: Option<i32>, inTime: bool, durationMs: u64)
    returns (result: Result<ExecResult, ExecError>)
    requires stdout != stderr
    modifies stdout, stderr
    ensures result == Err(BadTimeout) <==> !(1 <= timeoutSecs <= 60)
    ensures result == Err(NotSpawned) <==> 1 <= timeoutSecs <= 60 && !spawned
    ensures result.Err? && (result.error.BadTimeout? || result.error.NotSpawned?) ==>
      stdout.pending == old(stdout.pending) && stderr.pending == old(stderr.pending)
    ensures result.Ok? <==>
      && 1 <= timeoutSecs <= 60 && spawned && waited && inTime
      && |old(stdout.pending)| <= 256 * 1024 && stdout.failure.None?
      && |old(stderr.pending)| <= 256 * 1024 && stderr.failure.None?
    ensures result.Ok? ==>
      result.value == ExecResult(old(stdout.pending), old(stderr.pending), exitCode, signal, durationMs)
  {
    if !(1 <= timeoutSecs <= MAX_EXEC_SECONDS) {
      return Err(BadTimeout);
    }
    if !spawned {
      return Err(NotSpawned);
    }
    if !inTime {
      return Err(Expired);
    }
    var out := ReadOutput(stdout);
    var err := ReadOutput(stderr);
    match (out, err)
    case (Ok(o), Ok(e)) =>
      if !waited {
        return Err(NotWaited);
      }
      return Ok(ExecResult(o, e, exitCode, signal, durationMs));
    case (Err(error), _) => return Err(error);
    case (_, Err(error)) => return Err(error);
  }

  // ---------------------------------------------------------------- the reply as JSON text

  function Digit(n: nat): char
    requires n < 10
  {
    '0' + n as char
  }

  function Digits(n: nat): (text: string)
    ensures text != []
  {
    if n < 10 then [Digit(n)] else Digits(n / 10) + [Digit(n % 10)]
  }

  function Number(n: int): string {
    if n < 0 then "-" + Digits(-n) else Digits(n)
  }

  function Optional(n: Option<i32>): string {
    match n
    case None => "null"
    case Some(value) => Number(value)
  }

  /** The numbers of a nonempty array, separated by commas. */
  function Items(bytes: seq<byte>): string
    requires bytes != []
  {
    if |bytes| == 1 then Digits(bytes[0])
    else Items(bytes[..|bytes| - 1]) + "," + Digits(bytes[|bytes| - 1])
  }

  /** Byte vectors are written as arrays of numbers (section 5 of RFC 8259). */
  function ByteArray(bytes: seq<byte>): string {
    if bytes == [] then "[]" else "[" + Items(bytes) + "]"
  }

  function ReplyText(r: ExecResult): string {
    Member("{\"type\":\"exec\",\"data\":{\"stdout\":", ByteArray(r.stdout)) +
    Member(",\"stderr\":", ByteArray(r.stderr)) +
    Member(",\"exit_code\":", Optional(r.exitCode)) +
    Member(",\"signal\":", Optional(r.signal)) +
    Member(",\"duration_ms\":", Number(r.durationMs)) + "}}"
  }

  function Member(name: string, value: string): string {
    name + value
  }

  // ---------------------------------------------------------------- nothing is lost

  lemma {:induction false} DigitsInjective(a: nat, b: nat)
    requires Digits(a) == Digits(b)
    ensures a == b
  {
    if a >= 10 && b >= 10 {
      assert Digits(a)[..|Digits(a)| - 1] == Digits(a / 10) && Digits(b)[..|Digits(b)| - 1] == Digits(b / 10);
      assert Digits(a)[|Digits(a)| - 1] == Digit(a % 10) && Digits(b)[|Digits(b)| - 1] == Digit(b % 10);
      DigitsInjective(a / 10, b / 10);
    } else {
      assert a < 10 || |Digits(a)| > 1;
      assert b < 10 || |Digits(b)| > 1;
    }
  }

  predicate Free(text: string, mark: char) {
    forall i :: 0 <= i < |text| ==> text[i] != mark
  }

  lemma {:induction false} DigitsFree(n: nat, mark: char)
    requires !('0' <= mark <= '9')
    ensures Free(Digits(n), mark)
  {
    if n >= 10 {
      DigitsFree(n / 10, mark);
    }
  }

  /** Where a mark first follows text without it, both sides are determined. */
  lemma CutAtMark(a: string, x: string, b: string, y: string, mark: char)
    requires Free(a, mark) && Free(b, mark)
    requires x != [] && x[0] == mark && y != [] && y[0] == mark
    requires a + x == b + y
    ensures a == b && x == y
  {
    assert (a + x)[|a|] == mark && (b + y)[|b|] == mark;
    assert |a| == |b|;
    assert (a + x)[..|a|] == a && (b + y)[..|b|] == b;
    assert (a + x)[|a|..] == x && (b + y)[|b|..] == y;
  }

  /** ... and where it last precedes such text. */
  lemma CutAtLastMark(a: string, x: string, b: string, y: string, mark: char)
    requires Free(x, mark) && Free(y, mark)
    requires a + [mark] + x == b + [mark] + y
    ensures a == b && x == y
  {
    var t := a + [mark] + x;
    assert t[|a|] == mark && t[|b|] == mark;
    assert |a| == |b|;
    assert t[..|a|] == a && t[..|b|] == b;
    assert t[|a| + 1..] == x && t[|b| + 1..] == y;
  }

  lemma NumberFree(n: int, mark: char)
    requires !('0' <= mark <= '9') && mark != '-'
    ensures Free(Number(n), mark)
  {
    DigitsFree(if n < 0 then -n else n, mark);
  }

  lemma NumberInjective(a: int, b: int)
    requires Number(a) == Number(b)
    ensures a == b
  {
    DigitsFree(if a < 0 then -a else a, '-');
    DigitsFree(if b < 0 then -b else b, '-');
    assert (a < 0 <==> Number(a)[0] == '-') && (b < 0 <==> Number(b)[0] == '-');
    if a < 0 {
      assert Number(a)[1..] == Digits(-a) && Number(b)[1..] == Digits(-b);
      DigitsInjective(-a, -b);
    } else {
      DigitsInjective(a, b);
    }
  }

  lemma OptionalInjective(a: Option<i32>, b: Option<i32>)
    requires Optional(a) == Optional(b)
    ensures a == b
  {
    if a.Some? {
      NumberFree(a.value, 'n');
      assert Number(a.value)[0] != 'n';
    }
    if b.Some? {
      NumberFree(b.value, 'n');
      assert Number(b.value)[0] != 'n';
    }
    if a.Some? && b.Some? {
      NumberInjective(a.value, b.value);
    }
  }

  /** Only a single number has no separator. */
  lemma ItemsSeparated(bytes: seq<byte>)
    requires bytes != []
    ensures |bytes| == 1 <==> Free(Items(bytes), ',')
  {
    DigitsFree(bytes[|bytes| - 1], ',');
    if |bytes| > 1 {
      assert Items(bytes)[|Items(bytes[..|bytes| - 1])|] == ',';
    }
  }

  lemma {:induction false} ItemsInjective(a: seq<byte>, b: seq<byte>)
    requires a != [] && b != [] && Items(a) == Items(b)
    ensures a == b
  {
    ItemsSeparated(a);
    ItemsSeparated(b);
    var x, y := a[|a| - 1], b[|b| - 1];
    DigitsFree(x, ',');
    DigitsFree(y, ',');
    if |a| == 1 {
      DigitsInjective(x, y);
    } else {
      var af, bf := a[..|a| - 1], b[..|b| - 1];
      CutAtLastMark(Items(af), Digits(x), Items(bf), Digits(y), ',');
      DigitsInjective(x, y);
      ItemsInjective(af, bf);
      assert a == af + [x] && b == bf + [y];
    }
  }

  lemma {:induction false} ItemsFree(bytes: seq<byte>, mark: char)
    requires bytes != [] && !('0' <= mark <= '9') && mark != ','
    ensures Free(Items(bytes), mark)
  {
    DigitsFree(bytes[|bytes| - 1], mark);
    if |bytes| > 1 {
      ItemsFree(bytes[..|bytes| - 1], mark);
    }
  }

  lemma ByteArrayInjective(a: seq<byte>, b: seq<byte>)
    requires ByteArray(a) == ByteArray(b)
    ensures a == b
  {
    assert (a == [] <==> |ByteArray(a)| == 2) && (b == [] <==> |ByteArray(b)| == 2) by {
      assert a != [] ==> |Items(a)| > 0;
      assert b != [] ==> |Items(b)| > 0;
    }
    if a != [] {
      assert ByteArray(a)[1..|ByteArray(a)| - 1] == Items(a) && ByteArray(b)[1..|ByteArray(b)| - 1] == Items(b);
      ItemsInjective(a, b);
    }
  }

  lemma ByteArrayFree(bytes: seq<byte>)
    ensures Free(ByteArray(bytes), '\"')
  {
    if bytes != [] {
      ItemsFree(bytes, '\"');
    }
  }

  lemma OptionalFree(n: Option<i32>)
    ensures Free(Optional(n), '\"')
  {
    if n.Some? {
      NumberFree(n.value, '\"');
    }
  }

  /** A member's value, up to the name of the next, is determined by the text. */
  lemma MemberCut(name: string, a: string, x: string, b: string, y: string)
    requires Free(a, '\"') && Free(b, '\"')
    requires |x| > 1 && x[..2] == ",\"" && |y| > 1 && y[..2] == ",\""
    requires Member(name, a) + x == Member(name, b) + y
    ensures a == b && x == y
  {
    var t := name + a + x;
    assert t[|name|..] == a + x == b + y;
    assert a + x == (a + ",") + x[1..] && b + y == (b + ",") + y[1..];
    CutAtMark(a + ",", x[1..], b + ",", y[1..], '\"');
    assert (a + ",")[..|a|] == a && (b + ",")[..|b|] == b;
    assert x == "," + x[1..] && y == "," + y[1..];
  }

  /** The text from the exit code on, from the error output on, and whole. */
  function Tail(r: ExecResult): string {
    Member(",\"duration_ms\":", Number(r.durationMs)) + "}}"
  }

  function FromSignal(r: ExecResult): string {
    Member(",\"signal\":", Optional(r.signal)) + Tail(r)
  }

  function FromCode(r: ExecResult): string {
    Member(",\"exit_code\":", Optional(r.exitCode)) + FromSignal(r)
  }

  function FromErr(r: ExecResult): string {
    Member(",\"stderr\":", ByteArray(r.stderr)) + FromCode(r)
  }

  lemma ReplyTextNested(r: ExecResult)
    ensures ReplyText(r) == Member("{\"type\":\"exec\",\"data\":{\"stdout\":", ByteArray(r.stdout)) + FromErr(r)
  {
    var a := Member("{\"type\":\"exec\",\"data\":{\"stdout\":", ByteArray(r.stdout));
    var b := Member(",\"stderr\":", ByteArray(r.stderr));
    var c := Member(",\"exit_code\":", Optional(r.exitCode));
    var d := Member(",\"signal\":", Optional(r.signal));
    var e := Member(",\"duration_ms\":", Number(r.durationMs));
    assert a + b + c + d + e + "}}" == a + (b + (c + (d + (e + "}}"))));
  }

  lemma TailInjective(r: ExecResult, q: ExecResult)
    requires Tail(r) == Tail(q)
    ensures r.durationMs == q.durationMs
  {
    var name := ",\"duration_ms\":";
    assert Tail(r)[|name|..|Tail(r)| - 2] == Number(r.durationMs);
    assert Tail(q)[|name|..|Tail(q)| - 2] == Number(q.durationMs);
    NumberInjective(r.durationMs, q.durationMs);
  }

  lemma FromSignalInjective(r: ExecResult, q: ExecResult)
    requires FromSignal(r) == FromSignal(q)
    ensures r.signal == q.signal && r.durationMs == q.durationMs
  {
    OptionalFree(r.signal);
    OptionalFree(q.signal);
    MemberCut(",\"signal\":", Optional(r.signal), Tail(r), Optional(q.signal), Tail(q));
    OptionalInjective(r.signal, q.signal);
    TailInjective(r, q);
  }

  lemma FromCodeInjective(r: ExecResult, q: ExecResult)
    requires FromCode(r) == FromCode(q)
    ensures r.exitCode == q.exitCode && r.signal == q.signal && r.durationMs == q.durationMs
  {
    OptionalFree(r.exitCode);
    OptionalFree(q.exitCode);
    MemberCut(",\"exit_code\":", Optional(r.exitCode), FromSignal(r), Optional(q.exitCode), FromSignal(q));
    OptionalInjective(r.exitCode, q.exitCode);
    FromSignalInjective(r, q);
  }

  lemma FromErrInjective(r: ExecResult, q: ExecResult)
    requires FromErr(r) == FromErr(q)
    ensures r.stderr == q.stderr && r.exitCode == q.exitCode && r.signal == q.signal && r.durationMs == q.durationMs
  {
    ByteArrayFree(r.stderr);
    ByteArrayFree(q.stderr);
    MemberCut(",\"stderr\":", ByteArray(r.stderr), FromCode(r), ByteArray(q.stderr), FromCode(q));
    ByteArrayInjective(r.stderr, q.stderr);
    FromCodeInjective(r, q);
  }

  /** The reply loses nothing: no two results are written as the same text. */
  lemma ReplyTextIsInjective(r: ExecResult, q: ExecResult)
    requires ReplyText(r) == ReplyText(q)
    ensures r == q
  {
    ReplyTextNested(r);
    ReplyTextNested(q);
    ByteArrayFree(r.stdout);
    ByteArrayFree(q.stdout);
    MemberCut("{\"type\":\"exec\",\"data\":{\"stdout\":", ByteArray(r.stdout), FromErr(r), ByteArray(q.stdout), FromErr(q));
    ByteArrayInjective(r.stdout, q.stdout);
    FromErrInjective(r, q);
  }

  predicate Ascii(text: string) {
    forall i :: 0 <= i < |text| ==> text[i] < 128 as char
  }

  /** ASCII text takes one byte per character. */
  function Encoded(text: string): (bytes: seq<byte>)
    requires Ascii(text)
    ensures |bytes| == |text| && forall i :: 0 <= i < |text| ==> bytes[i] == text[i] as int
  {
    seq(|text|, i requires 0 <= i < |text| => text[i] as int)
  }

  // ---------------------------------------------------------------- size

  function Pow10(k: nat): nat {
    if k == 0 then 1 else 10 * Pow10(k - 1)
  }

  lemma {:induction false} DigitsBound(n: nat, k: nat)
    requires k > 0 && n < Pow10(k)
    ensures |Digits(n)| <= k
  {
    if n >= 10 {
      assert n / 10 < Pow10(k - 1);
      DigitsBound(n / 10, k - 1);
    }
  }

  lemma PowersOfTen()
    ensures Pow10(3) == 1000 && Pow10(10) == 10_000_000_000 && Pow10(20) == 100_000_000_000_000_000_000
  {
    assert Pow10(2) == 100;
    assert Pow10(4) == 10_000;
    assert Pow10(6) == 1_000_000;
    assert Pow10(8) == 100_000_000;
    assert Pow10(10) == 10_000_000_000;
    assert Pow10(12) == 1_000_000_000_000;
    assert Pow10(14) == 100_000_000_000_000;
    assert Pow10(16) == 10_000_000_000_000_000;
    assert Pow10(18) == 1_000_000_000_000_000_000;
  }

  lemma {:induction false} ItemsBound(bytes: seq<byte>)
    requires bytes != []
    ensures |Items(bytes)| <= 4 * |bytes| - 1
  {
    PowersOfTen();
    DigitsBound(bytes[|bytes| - 1], 3);
    if |bytes| > 1 {
      ItemsBound(bytes[..|bytes| - 1]);
    }
  }

  /** A byte array of length n takes at most 4n + 1 bytes, or two bytes if it is empty. */
  lemma ByteArrayBound(bytes: seq<byte>)
    ensures |ByteArray(bytes)| <= if bytes == [] then 2 else 4 * |bytes| + 1
  {
    if bytes != [] {
      ItemsBound(bytes);
    }
  }

  lemma ThreeDigits(n: nat)
    requires 100 <= n < 1000
    ensures |Digits(n)| == 3
  {
    assert |Digits(n / 10 / 10)| == 1;
    assert |Digits(n / 10)| == 2;
  }

  /** The bound is reached by every nonempty array of three-digit bytes. */
  lemma {:induction false} ByteArrayBoundIsTight(bytes: seq<byte>)
    requires bytes != [] && forall i :: 0 <= i < |bytes| ==> bytes[i] >= 100
    ensures |ByteArray(bytes)| == 4 * |bytes| + 1
  {
    ThreeDigits(bytes[|bytes| - 1]);
    if |bytes| > 1 {
      ByteArrayBoundIsTight(bytes[..|bytes| - 1]);
    }
  }

  lemma {:induction false} DigitsAscii(n: nat)
    ensures Ascii(Digits(n))
  {
    if n >= 10 {
      DigitsAscii(n / 10);
    }
  }

  lemma {:induction false} ItemsAscii(bytes: seq<byte>)
    requires bytes != []
    ensures Ascii(Items(bytes))
  {
    DigitsAscii(bytes[|bytes| - 1]);
    if |bytes| > 1 {
      ItemsAscii(bytes[..|bytes| - 1]);
    }
  }

  predicate Fits(text: string, n: nat) {
    Ascii(text) && |text| <= n
  }

  lemma OptionalFits(n: Option<i32>)
    ensures Fits(Optional(n), 11)
  {
    if n.Some? {
      var value: int := n.value;
      var magnitude := if value < 0 then -value else value;
      PowersOfTen();
      DigitsBound(magnitude, 10);
      DigitsAscii(magnitude);
    }
  }

  lemma ByteArrayFits(bytes: seq<byte>)
    requires |bytes| <= OUTPUT_LIMIT
    ensures Fits(ByteArray(bytes), 4 * OUTPUT_LIMIT + 1)
  {
    ByteArrayBound(bytes);
    if bytes != [] {
      ItemsAscii(bytes);
    }
  }

  lemma NumberFits(n: u64)
    ensures Fits(Number(n), 20)
  {
    PowersOfTen();
    DigitsBound(n, 20);
    DigitsAscii(n);
  }

  lemma FitsAppend(a: string, n: nat, b: string, m: nat)
    requires Fits(a, n) && Fits(b, m)
    ensures Fits(a + b, n + m)
  {}

  lemma MemberFits(name: string, value: string, m: nat)
    requires Fits(name, 40) && Fits(value, m)
    ensures Fits(Member(name, value), 40 + m)
  {
    FitsAppend(name, 40, value, m);
  }

  /** Every reply that output limits allow is within the frame limit. */
  lemma ReplyFits(r: ExecResult)
    requires |r.stdout| <= OUTPUT_LIMIT && |r.stderr| <= OUTPUT_LIMIT
    ensures Ascii(ReplyText(r)) && |ReplyText(r)| <= MAX_FRAME == 4 * 1024 * 1024
  {
    var widest := 4 * OUTPUT_LIMIT + 1;
    ByteArrayFits(r.stdout);
    ByteArrayFits(r.stderr);
    OptionalFits(r.exitCode);
    OptionalFits(r.signal);
    NumberFits(r.durationMs);
    var out := Member("{\"type\":\"exec\",\"data\":{\"stdout\":", ByteArray(r.stdout));
    var err := Member(",\"stderr\":", ByteArray(r.stderr));
    var code := Member(",\"exit_code\":", Optional(r.exitCode));
    var signal := Member(",\"signal\":", Optional(r.signal));
    var duration := Member(",\"duration_ms\":", Number(r.durationMs));
    MemberFits("{\"type\":\"exec\",\"data\":{\"stdout\":", ByteArray(r.stdout), widest);
    MemberFits(",\"stderr\":", ByteArray(r.stderr), widest);
    MemberFits(",\"exit_code\":", Optional(r.exitCode), 11);
    MemberFits(",\"signal\":", Optional(r.signal), 11);
    MemberFits(",\"duration_ms\":", Number(r.durationMs), 20);
    FitsAppend(out, 40 + widest, err, 40 + widest);
    FitsAppend(out + err, 80 + 2 * widest, code, 51);
    FitsAppend(out + err + code, 131 + 2 * widest, signal, 51);
    FitsAppend(out + err + code + signal, 182 + 2 * widest, duration, 60);
    FitsAppend(out + err + code + signal + duration, 242 + 2 * widest, "}}", 2);
  }

  /** The reply to a command that ran is never refused for its size. */
  method SendReply(sink: Sink, r: ExecResult) returns (result: Result<(), Error>)
    requires |r.stdout| <= OUTPUT_LIMIT && |r.stderr| <= OUTPUT_LIMIT
    modifies sink
    ensures result != Err(FrameTooLarge)
    ensures result.Ok? ==>
      Ascii(ReplyText(r)) && sink.sent == old(sink.sent) + Frame(Encoded(ReplyText(r)))
  {
    ReplyFits(r);
    result := WriteFrame(sink, Encoded(ReplyText(r)));
    ghost var frame := Frame(Encoded(ReplyText(r)));
    assert frame[..|frame|] == frame;
  }
}
