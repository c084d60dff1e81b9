/**
  Comparison results and the orderings the crate relies on from Rust's `std::cmp`:
  the lexicographic order Rust derives for vectors, the total-order bound `Ord`
  places on labels, and the sort `Vec::sort` performs.
 */
module Order {

  datatype Ordering = Less | Equal | Greater

  /** `Ordering::reverse`. */
  function Reverse(o: Ordering): Ordering {
    match o
    case Less => Greater
    case Equal => Equal
    case Greater => Less
  }

  /** `cmp` is a total order whose `Equal` is equality: what a type implementing `Ord` promises. */
  ghost predicate IsTotalOrder<T(!new)>(cmp: (T, T) -> Ordering) {
    && (forall a, b :: cmp(a, b) == Equal <==> a == b)
    && (forall a, b :: cmp(a, b) == Less <==> cmp(b, a) == Greater)
    && (forall a, b, c :: cmp(a, b) == Less && cmp(b, c) == Less ==> cmp(a, c) == Less)
  }

  lemma NotGreaterTransitive<T(!new)>(cmp: (T, T) -> Ordering, a: T, b: T, c: T)
    requires IsTotalOrder(cmp)
    requires cmp(a, b) != Greater && cmp(b, c) != Greater
    ensures cmp(a, c) != Greater
  {
  }

  /** Lexicographic comparison, as Rust compares vectors and slices: element by
      element, the first difference decides, and a proper prefix is smaller. */
  function LexCmp<T>(cmp: (T, T) -> Ordering, a: seq<T>, b: seq<T>): Ordering
  {
    if a == [] then (if b == [] then Equal else Less)
    else if b == [] then Greater
    else if cmp(a[0], b[0]) == Equal then LexCmp(cmp, a[1..], b[1..])
    else cmp(a[0], b[0])
  }

  /** The lexicographic order as a comparison function. */
  function LexOrder<T>(cmp: (T, T) -> Ordering): (seq<T>, seq<T>) -> Ordering
  {
    (a: seq<T>, b: seq<T>) => LexCmp(cmp, a, b)
  }

  lemma {:induction false} LexCmpEqual<T(!new)>(cmp: (T, T) -> Ordering, a: seq<T>, b: seq<T>)
    requires IsTotalOrder(cmp)
    ensures LexCmp(cmp, a, b) == Equal <==> a == b
    decreases |a|
  {
    if a != [] && b != [] {
      if cmp(a[0], b[0]) == Equal {
        LexCmpEqual(cmp, a[1..], b[1..]);
        assert a == [a[0]] + a[1..] && b == [b[0]] + b[1..];
      } else {
        assert a[0] != b[0];
      }
    }
  }

  lemma {:induction false} LexCmpFlip<T(!new)>(cmp: (T, T) -> Ordering, a: seq<T>, b: seq<T>)
    requires IsTotalOrder(cmp)
    ensures LexCmp(cmp, a, b) == Less <==> LexCmp(cmp, b, a) == Greater
    decreases |a|
  {
    if a != [] && b != [] {
      if cmp(a[0], b[0]) == Equal {
        assert cmp(b[0], a[0]) == Equal;
        LexCmpFlip(cmp, a[1..], b[1..]);
      } else {
        assert cmp(b[0], a[0]) != Equal;
      }
    }
  }

  lemma {:induction false} LexCmpTransitive<T(!new)>(cmp: (T, T) -> Ordering, a: seq<T>, b: seq<T>, c: seq<T>)
    requires IsTotalOrder(cmp)
    requires LexCmp(cmp, a, b) == Less && LexCmp(cmp, b, c) == Less
    ensures LexCmp(cmp, a, c) == Less
    decreases |a|
  {
    if a != [] {
      assert b != [] && c != [];
      if cmp(a[0], b[0]) == Equal && cmp(b[0], c[0]) == Equal {
        LexCmpTransitive(cmp, a[1..], b[1..], c[1..]);
      }
    }
  }

  /** The lexicographic extension of a total order is a total order. */
  lemma LexTotalOrder<T(!new)>(cmp: (T, T) -> Ordering)
    requires IsTotalOrder(cmp)
    ensures IsTotalOrder(LexOrder(cmp))
  {
    forall a: seq<T>, b: seq<T>
      ensures (LexCmp(cmp, a, b) == Equal <==> a == b)
      ensures (LexCmp(cmp, a, b) == Less <==> LexCmp(cmp, b, a) == Greater)
    {
      LexCmpEqual(cmp, a, b);
      LexCmpFlip(cmp, a, b);
    }
    forall a: seq<T>, b: seq<T>, c: seq<T> | LexCmp(cmp, a, b) == Less && LexCmp(cmp, b, c) == Less
      ensures LexCmp(cmp, a, c) == Less
    {
      LexCmpTransitive(cmp, a, b, c);
    }
  }

  /** Comparing two concatenations whose first parts have the same length is
      comparing the first parts, then the second parts. */
  lemma {:induction false} LexCmpAppend<T>(cmp: (T, T) -> Ordering, a1: seq<T>, b1: seq<T>, a2: seq<T>, b2: seq<T>)
    requires |a1| == |a2|
    ensures LexCmp(cmp, a1 + b1, a2 + b2) ==
            (if LexCmp(cmp, a1, a2) == Equal then LexCmp(cmp, b1, b2) else LexCmp(cmp, a1, a2))
    decreases |a1|
  {
    if a1 != [] {
      assert (a1 + b1)[1..] == a1[1..] + b1;
      assert (a2 + b2)[1..] == a2[1..] + b2;
      LexCmpAppend(cmp, a1[1..], b1, a2[1..], b2);
    } else {
      assert a1 + b1 == b1 && a2 + b2 == b2;
    }
  }

  /** The first difference decides: after a common prefix of length `k`, the
      comparison of the elements at `k` is the comparison of the sequences. */
  lemma {:induction false} LexCmpFirstDifference<T(!new)>(cmp: (T, T) -> Ordering, a: seq<T>, b: seq<T>, k: nat)
    requires IsTotalOrder(cmp)
    requires k < |a| && k < |b| && a[..k] == b[..k] && cmp(a[k], b[k]) != Equal
    ensures LexCmp(cmp, a, b) == cmp(a[k], b[k])
    decreases k
  {
    if k > 0 {
      assert a[0] == a[..k][0] == b[..k][0] == b[0];
      assert a[1..][..k - 1] == a[..k][1..] == b[..k][1..] == b[1..][..k - 1];
      LexCmpFirstDifference(cmp, a[1..], b[1..], k - 1);
    }
  }

  /** `s` is in ascending order under `cmp`: no element is greater than a later one. */
  ghost predicate SortedBy<T>(cmp: (T, T) -> Ordering, s: seq<T>) {
    forall i, j :: 0 <= i < j < |s| ==> cmp(s[i], s[j]) != Greater
  }

  lemma SortedTail<T>(cmp: (T, T) -> Ordering, s: seq<T>)
    requires s != [] && SortedBy(cmp, s)
    ensures SortedBy(cmp, s[1..])
  {
    forall i, j | 0 <= i < j < |s[1..]| ensures cmp(s[1..][i], s[1..][j]) != Greater {
      assert s[1..][i] == s[i + 1] && s[1..][j] == s[j + 1];
    }
  }

  /** Inserts `x` in front of the first element it is not greater than. */
  function Insert<T>(cmp: (T, T) -> Ordering, x: T, s: seq<T>): (r: seq<T>)
    ensures multiset(r) == multiset(s) + multiset{x}
  {
    if s == [] then [x]
    else if cmp(x, s[0]) != Greater then [x] + s
    else
      assert s == [s[0]] + s[1..];
      [s[0]] + Insert(cmp, x, s[1..])
  }

  /** `Vec::sort`, as an insertion sort. For a total order whose `Equal` is
      equality there is only one sorted permutation, so the algorithm chosen
      does not change the result. */
  function Sort<T>(cmp: (T, T) -> Ordering, s: seq<T>): (r: seq<T>)
    ensures multiset(r) == multiset(s)
  {
    if s == [] then []
    else
      assert s == [s[0]] + s[1..];
      Insert(cmp, s[0], Sort(cmp, s[1..]))
  }

  lemma {:induction false} InsertSorted<T(!new)>(cmp: (T, T) -> Ordering, x: T, s: seq<T>)
    requires IsTotalOrder(cmp)
    requires SortedBy(cmp, s)
    ensures SortedBy(cmp, Insert(cmp, x, s))
  {
    if s == [] {
    } else if cmp(x, s[0]) != Greater {
      var r := [x] + s;
      forall i, j | 0 <= i < j < |r| ensures cmp(r[i], r[j]) != Greater {
        if i == 0 && j > 1 {
          NotGreaterTransitive(cmp, x, s[0], s[j - 1]);
        }
      }
    } else {
      var rest := Insert(cmp, x, s[1..]);
      InsertSorted(cmp, x, s[1..]);
      forall e | e in multiset(rest) ensures cmp(s[0], e) != Greater {
        if e != x {
          assert e in multiset(s[1..]);
          var k :| 0 <= k < |s[1..]| && s[1..][k] == e;
          assert s[k + 1] == e;
        }
      }
      var r := [s[0]] + rest;
      forall i, j | 0 <= i < j < |r| ensures cmp(r[i], r[j]) != Greater {
        if i == 0 {
          assert rest[j - 1] in multiset(rest);
        }
      }
    }
  }

  /** `Sort` returns an ascending permutation of its input. */
  lemma {:induction false} SortSorted<T(!new)>(cmp: (T, T) -> Ordering, s: seq<T>)
    requires IsTotalOrder(cmp)
    ensures SortedBy(cmp, Sort(cmp, s))
    ensures multiset(Sort(cmp, s)) == multiset(s)
  {
    if s != [] {
      SortSorted(cmp, s[1..]);
      InsertSorted(cmp, s[0], Sort(cmp, s[1..]));
    }
  }

  /** Ascending order follows from ascending neighbours. */
  lemma {:induction false} SortedByAdjacent<T(!new)>(cmp: (T, T) -> Ordering, s: seq<T>)
    requires IsTotalOrder(cmp)
    requires forall i :: 0 <= i < |s| - 1 ==> cmp(s[i], s[i + 1]) != Greater
    ensures SortedBy(cmp, s)
    decreases |s|
  {
    if |s| > 1 {
      var t := s[1..];
      forall i | 0 <= i < |t| - 1 ensures cmp(t[i], t[i + 1]) != Greater {
        assert t[i] == s[i + 1] && t[i + 1] == s[i + 2];
      }
      SortedByAdjacent(cmp, t);
      forall i, j | 0 <= i < j < |s| ensures cmp(s[i], s[j]) != Greater {
        if i == 0 && j > 1 {
          assert cmp(s[1], s[j]) != Greater by { assert t[0] == s[1] && t[j - 1] == s[j]; }
          NotGreaterTransitive(cmp, s[0], s[1], s[j]);
        } else if i > 0 {
          assert t[i - 1] == s[i] && t[j - 1] == s[j];
        }
      }
    }
  }

  /** Under a total order whose `Equal` is equality a sequence has exactly one
      ascending permutation, so every correct sort returns the same result. */
  lemma {:induction false} SortedUnique<T(!new)>(cmp: (T, T) -> Ordering, s1: seq<T>, s2: seq<T>)
    requires IsTotalOrder(cmp)
    requires SortedBy(cmp, s1) && SortedBy(cmp, s2) && multiset(s1) == multiset(s2)
    ensures s1 == s2
    decreases |s1|
  {
    assert |s1| == |multiset(s1)| == |multiset(s2)| == |s2|;
    if s1 != [] {
      var a, b := s1[0], s2[0];
      assert a in multiset(s2) && b in multiset(s1) by {
        assert a in s1 && b in s2;
      }
      var j :| 0 <= j < |s2| && s2[j] == a;
      var i :| 0 <= i < |s1| && s1[i] == b;
      assert cmp(b, a) != Greater && cmp(a, b) != Greater by {
        if j > 0 { assert cmp(s2[0], s2[j]) != Greater; }
        if i > 0 { assert cmp(s1[0], s1[i]) != Greater; }
      }
      assert a == b;
      assert s1 == [a] + s1[1..] && s2 == [a] + s2[1..];
      assert multiset(s1[1..]) == multiset(s2[1..]) by {
        assert multiset(s1[1..]) == multiset(s1) - multiset{a};
        assert multiset(s2[1..]) == multiset(s2) - multiset{a};
      }
      SortedTail(cmp, s1);
      SortedTail(cmp, s2);
      SortedUnique(cmp, s1[1..], s2[1..]);
    }
  }

  /** A sequence that picks every position of `s` exactly once, in the order
      `perm` lists them, holds the same elements as `s`. */
  lemma {:induction false} ReorderedPermutation<T>(s: seq<T>, t: seq<T>, perm: seq<int>)
    requires |t| == |s| && |perm| == |s|
    requires forall i :: 0 <= i < |perm| ==> 0 <= perm[i] < |s| && t[i] == s[perm[i]]
    requires forall i, j :: 0 <= i < j < |perm| ==> perm[i] != perm[j]
    ensures multiset(t) == multiset(s)
    decreases |t|
  {
    if t != [] {
      var n := |t| - 1;
      var k := perm[n];
      var s' := s[..k] + s[k + 1..];
      var perm' := seq(n, i requires 0 <= i < n => if perm[i] < k then perm[i] else perm[i] - 1);
      forall i | 0 <= i < n ensures 0 <= perm'[i] < |s'| && t[..n][i] == s'[perm'[i]] {
        assert perm[i] != perm[n];
      }
      forall i, j | 0 <= i < j < n ensures perm'[i] != perm'[j] {
        assert perm[i] != perm[n] && perm[j] != perm[n] && perm[i] != perm[j];
      }
      ReorderedPermutation(s', t[..n], perm');
      assert t == t[..n] + [t[n]];
      assert s == s[..k] + [s[k]] + s[k + 1..];
    }
  }
}
