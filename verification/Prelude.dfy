/** Small value types and sequence helpers shared by the models. */
module Prelude {
  datatype Option<+T> = None | Some(value: T)

  datatype Result<+T, +E> = Ok(value: T) | Err(error: E)

  function Min(a: int, b: int): int {
    if a <= b then a else b
  }

  /** The last `n` elements, or all of them when there are fewer. */
  function LastN<T>(s: seq<T>, n: nat): seq<T> {
    if |s| <= n then s else s[|s| - n..]
  }

  /** A bounded buffer that drops its oldest element before a push holds the last `n`. */
  lemma LastNPush<T>(s: seq<T>, x: T, n: nat)
    requires n > 0
    ensures LastN(s + [x], n) ==
            (if |LastN(s, n)| == n then LastN(s, n)[1..] else LastN(s, n)) + [x]
  {
    var kept := LastN(s, n);
    if |s| < n {
    } else {
      assert kept == s[|s| - n..];
      assert (s + [x])[|s| + 1 - n..] == kept[1..] + [x];
    }
  }

  lemma LastNEnd<T>(s: seq<T>, n: nat)
    requires n > 0 && s != []
    ensures LastN(s, n) != [] && LastN(s, n)[|LastN(s, n)| - 1] == s[|s| - 1]
  {}
}
