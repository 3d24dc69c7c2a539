/** Bounded sequences: the tail kept by `deque(maxlen=n)` and by `s[-n:]`, and
    the append-then-`pop(0)` idiom of the swarm's mission log. */
module Bounded {

  /** The last `n` elements of `s` (all of `s` when it is shorter). */
  function TakeLast<T>(s: seq<T>, n: nat): (r: seq<T>)
    ensures |r| == if |s| <= n then |s| else n
  {
    if |s| <= n then s else s[|s| - n..]
  }

  /** `s.append(x)` followed by `s.pop(0)` when the length then exceeds `cap`. */
  function Append<T>(s: seq<T>, x: T, cap: nat): (r: seq<T>)
    ensures |s| <= cap ==> |r| <= cap
  {
    if |s| + 1 > cap then (s + [x])[1..] else s + [x]
  }

  /** Appending each element of `xs` in order. */
  function AppendAll<T>(s: seq<T>, xs: seq<T>, cap: nat): seq<T>
    decreases |xs|
  {
    if xs == [] then s else AppendAll(Append(s, xs[0], cap), xs[1..], cap)
  }

  /** Taking the last `n` of any suffix that is at least that long. */
  lemma TakeLastOfSuffix<T>(t: seq<T>, k: nat, n: nat)
    requires k <= |t|
    requires |t| - k >= (if |t| <= n then |t| else n)
    ensures TakeLast(t[k..], n) == TakeLast(t, n)
  {
  }

  /** Trimming before appending changes nothing: the kept tail only depends on
      the whole history. */
  lemma TakeLastAbsorbs<T>(a: seq<T>, b: seq<T>, n: nat)
    ensures TakeLast(TakeLast(a, n) + b, n) == TakeLast(a + b, n)
  {
    var u := TakeLast(a, n);
    assert u + b == (a + b)[|a| - |u|..];
    TakeLastOfSuffix(a + b, |a| - |u|, n);
  }

  /** Within the bound, append-then-pop keeps exactly the newest `cap`
      elements, drops at most the oldest one and stays within the bound. */
  lemma AppendKeepsNewest<T>(s: seq<T>, x: T, cap: nat)
    requires |s| <= cap
    ensures Append(s, x, cap) == TakeLast(s + [x], cap)
    ensures |Append(s, x, cap)| <= cap
    ensures cap >= 1 ==> Append(s, x, cap)[|Append(s, x, cap)| - 1] == x
    ensures |s| < cap ==> Append(s, x, cap) == s + [x]
    ensures |s| == cap && cap >= 1 ==> Append(s, x, cap) == s[1..] + [x]
  {
    if |s| == cap && cap >= 1 {
      assert (s + [x])[1..] == s[1..] + [x];
    }
  }

  /** One append followed by the rest: the step of the induction below. */
  lemma AppendThenRest<T>(s: seq<T>, x: T, rest: seq<T>, cap: nat)
    requires |s| <= cap
    requires AppendAll(Append(s, x, cap), rest, cap) == TakeLast(Append(s, x, cap) + rest, cap)
    ensures AppendAll(Append(s, x, cap), rest, cap) == TakeLast(s + ([x] + rest), cap)
  {
    AppendKeepsNewest(s, x, cap);
    TakeLastAbsorbs(s + [x], rest, cap);
    assert s + [x] + rest == s + ([x] + rest);
  }

  /** Any run of appends within the bound keeps exactly the newest `cap`
      elements of the whole history, in order. */
  lemma {:induction false} AppendAllKeepsNewest<T>(s: seq<T>, xs: seq<T>, cap: nat)
    requires |s| <= cap
    ensures AppendAll(s, xs, cap) == TakeLast(s + xs, cap)
    decreases |xs|
  {
    if xs == [] {
      assert s + xs == s;
    } else {
      AppendKeepsNewest(s, xs[0], cap);
      AppendAllKeepsNewest(Append(s, xs[0], cap), xs[1..], cap);
      AppendThenRest(s, xs[0], xs[1..], cap);
      assert [xs[0]] + xs[1..] == xs;
    }
  }
}
