/** Python's `xs[-n:]`, which is also what a `deque(maxlen=n)` holds after appending every element of `xs`. */
module Sequences {

  /** The last `n` elements of `s`, or all of `s` when it is shorter. */
  function Last<T>(s: seq<T>, n: nat): (r: seq<T>)
    ensures |r| == if |s| <= n then |s| else n
    ensures r == s[|s| - |r|..]
  {
    if |s| <= n then s else s[|s| - n..]
  }

  /** Appending to the whole sequence and then keeping the tail is appending to the tail and trimming it. */
  lemma LastAppend<T>(s: seq<T>, x: T, n: nat)
    ensures Last(s + [x], n) == Last(Last(s, n) + [x], n)
  {
    var t := Last(s, n);
    assert (s + [x])[|s| + 1 - |Last(s + [x], n)|..] == Last(s + [x], n);
    if n == 0 {
    } else if |s| < n {
    } else {
      assert Last(s + [x], n) == s[|s| + 1 - n..] + [x];
      assert Last(t + [x], n) == t[1..] + [x];
    }
  }
}
