/**
  The bounded deque `BDeque<T>`: a first-in first-out window of capacity `maxlen`
  that evicts its front element when a push finds it full, like Python's
  `deque(maxlen=...)`. The functions describe the contents as values; the class
  is the object the crate mutates in place.
 */
module BoundedDeque {
  import opened Wrappers

  function Min(a: nat, b: nat): nat {
    if a <= b then a else b
  }

  /** The last `n` elements of `s`. */
  function Last<T>(s: seq<T>, n: nat): (r: seq<T>)
    requires n <= |s|
    ensures |r| == n
    ensures forall i :: 0 <= i < n ==> r[i] == s[|s| - n + i]
  {
    s[|s| - n..]
  }

  /** `n` copies of `x`. */
  function Repeat<T>(x: T, n: nat): (r: seq<T>)
    ensures |r| == n
    ensures forall i :: 0 <= i < n ==> r[i] == x
  {
    if n == 0 then [] else Repeat(x, n - 1) + [x]
  }

  /** The contents after `push_back(item)` on a deque of capacity `maxlen` that
      holds `s`: when the length has reached `maxlen` the front is popped first.
      A deque of capacity 0 holding nothing has no front to pop, so it grows. */
  function Pushed<T>(maxlen: nat, s: seq<T>, item: T): seq<T> {
    if |s| == maxlen && s != [] then s[1..] + [item] else s + [item]
  }

  /** What `push_back` returns: the popped front element, if any. */
  function Evicted<T>(maxlen: nat, s: seq<T>): Option<T> {
    if |s| == maxlen && s != [] then Some(s[0]) else None
  }

  /** The contents after pushing every element of `xs`, first to last. */
  function PushedAll<T>(maxlen: nat, s: seq<T>, xs: seq<T>): seq<T>
    decreases |xs|
  {
    if xs == [] then s else Pushed(maxlen, PushedAll(maxlen, s, xs[..|xs| - 1]), xs[|xs| - 1])
  }

  lemma LastOfLast<T>(s: seq<T>, r: seq<T>, n: nat)
    requires n <= |s|
    ensures Last(Last(s, n) + r, n) == Last(s + r, n)
  {
  }

  /** With a positive capacity and a start within it, the deque always holds the
      most recent `min(maxlen, total)` of everything it has held or been given. */
  lemma {:induction false} PushedAllWindow<T>(maxlen: nat, s: seq<T>, xs: seq<T>)
    requires maxlen >= 1 && |s| <= maxlen
    ensures |s + xs| >= Min(maxlen, |s| + |xs|)
    ensures PushedAll(maxlen, s, xs) == Last(s + xs, Min(maxlen, |s| + |xs|))
    decreases |xs|
  {
    if xs != [] {
      var init := xs[..|xs| - 1];
      var x := xs[|xs| - 1];
      PushedAllWindow(maxlen, s, init);
      assert xs == init + [x];
      assert s + xs == (s + init) + [x];
      var w := Last(s + init, Min(maxlen, |s| + |init|));
      if |w| == maxlen && w != [] {
        assert w[1..] + [x] == Last(s + xs, maxlen);
      } else {
        assert w + [x] == Last(s + xs, |s| + |xs|);
      }
    }
  }

  /** From `new`, a deque of positive capacity holds the last `min(maxlen, n)` of
      the `n` items pushed so far. */
  lemma PushedSinceNew<T>(maxlen: nat, xs: seq<T>)
    requires maxlen >= 1
    ensures |PushedAll(maxlen, [], xs)| == Min(maxlen, |xs|)
    ensures PushedAll(maxlen, [], xs) == Last(xs, Min(maxlen, |xs|))
  {
    PushedAllWindow(maxlen, [], xs);
    assert [] + xs == xs;
  }

  /** Pushing `maxlen` copies of `x` onto a deque within its positive capacity
      leaves exactly `maxlen` copies of `x`. */
  lemma FilledWindow<T>(maxlen: nat, s: seq<T>, x: T)
    requires maxlen >= 1 && |s| <= maxlen
    ensures PushedAll(maxlen, s, Repeat(x, maxlen)) == Repeat(x, maxlen)
  {
    PushedAllWindow(maxlen, s, Repeat(x, maxlen));
  }

  /** The deque keeps at most `maxlen` elements when it was within its positive
      capacity before the push, and pushes of a capacity-0 deque grow it by one. */
  lemma PushedLength<T>(maxlen: nat, s: seq<T>, item: T)
    ensures maxlen >= 1 && |s| <= maxlen ==> |Pushed(maxlen, s, item)| <= maxlen
    ensures maxlen == 0 ==> |Pushed(maxlen, s, item)| == |s| + 1
  {
  }

  /** A deque only ever holds what it started with or was given. */
  lemma {:induction false} PushedAllMembers<T>(maxlen: nat, s: seq<T>, xs: seq<T>)
    ensures forall e :: e in PushedAll(maxlen, s, xs) ==> e in s || e in xs
    decreases |xs|
  {
    if xs != [] {
      var init := xs[..|xs| - 1];
      PushedAllMembers(maxlen, s, init);
      var w := PushedAll(maxlen, s, init);
      assert forall e :: e in Pushed(maxlen, w, xs[|xs| - 1]) ==> e in w || e == xs[|xs| - 1];
      assert forall e :: e in init ==> e in xs;
    }
  }

  class BDeque<T> {
    const maxlen: nat
    var state: seq<T>

    /** The invariant a deque of positive capacity keeps; a deque of capacity 0
        is not bounded by it (see `Pushed`). */
    ghost predicate Valid()
      reads this
    {
      maxlen >= 1 ==> |state| <= maxlen
    }

    /** `BDeque::new`: an empty deque of capacity `maxlen`. */
    constructor (maxlen: nat)
      ensures this.maxlen == maxlen && state == [] && Valid()
    {
      this.maxlen := maxlen;
      state := [];
    }

    /** `push_back`: pops the front when the deque is full, then appends `item`,
        and returns what it popped. */
    method PushBack(item: T) returns (evicted: Option<T>)
      modifies this
      ensures |old(state)| < maxlen ==> evicted == None && state == old(state) + [item]
      ensures |old(state)| == maxlen && old(state) != [] ==>
                evicted == Some(old(state)[0]) && state == old(state)[1..] + [item]
      ensures state == Pushed(maxlen, old(state), item) && evicted == Evicted(maxlen, old(state))
      ensures old(Valid()) ==> Valid()
    {
      if |state| == maxlen && state != [] {
        evicted := Some(state[0]);
        state := state[1..];
      } else {
        evicted := None;
      }
      state := state + [item];
    }

    /** `fill_with`: pushes `item` `maxlen` times. */
    method FillWith(item: T)
      modifies this
      ensures state == PushedAll(maxlen, old(state), Repeat(item, maxlen))
      ensures maxlen >= 1 && old(Valid()) ==> state == Repeat(item, maxlen)
      ensures maxlen == 0 ==> state == old(state)
      ensures old(Valid()) ==> Valid()
    {
      for i := 0 to maxlen
        invariant state == PushedAll(maxlen, old(state), Repeat(item, i))
      {
        var evicted := PushBack(item);
        assert Repeat(item, i + 1)[..i] == Repeat(item, i);
      }
      if maxlen >= 1 && old(Valid()) {
        FilledWindow(maxlen, old(state), item);
      }
    }

    /** `copy_state`: the contents, oldest first, as a value of their own. */
    method CopyState() returns (v: seq<T>)
      ensures v == state
    {
      v := [];
      for i := 0 to |state|
        invariant v == state[..i]
      {
        v := v + [state[i]];
      }
    }

    /** The derived `clone`: a fresh deque with the same capacity and contents. */
    method Clone() returns (c: BDeque<T>)
      ensures fresh(c) && c.maxlen == maxlen && c.state == state
    {
      c := new BDeque(maxlen);
      c.state := state;
    }
  }

  /** The crate's unit test of the deque: the contents after each step, and the
      value that the fourth push evicts. */
  method Scenario() returns (states: seq<seq<int>>, one: Option<int>)
    ensures states == [[], [1], [1, 2], [1, 2, 3], [2, 3, 4], [0, 0, 0]]
    ensures one == Some(1)
  {
    var bd := new BDeque<int>(3);
    var s0 := bd.CopyState();
    var e := bd.PushBack(1);
    assert bd.state == [1];
    var s1 := bd.CopyState();
    e := bd.PushBack(2);
    assert bd.state == [1, 2];
    var s2 := bd.CopyState();
    e := bd.PushBack(3);
    assert bd.state == [1, 2, 3];
    var s3 := bd.CopyState();
    one := bd.PushBack(4);
    assert bd.state == [2, 3, 4];
    var s4 := bd.CopyState();
    bd.FillWith(0);
    assert Repeat(0, 3) == [0, 0, 0] by {
      assert Repeat(0, 1) == [0];
      assert Repeat(0, 2) == [0, 0];
    }
    var s5 := bd.CopyState();
    states := [s0, s1, s2, s3, s4, s5];
  }
}
