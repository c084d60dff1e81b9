/**
  Comparing two profiles (src/pqgrams.rs): flattening grams into label vectors,
  the default gram comparison, the merge-join that sums gram similarities over
  two profiles, and the pq-gram distance built on it.
 */
module Matching {
  import opened Wrappers
  import opened Order
  import opened Grams
  import opened BoundedDeque
  import opened DefaultTree
  import opened Profiles

  /** An `f64` result: a finite value, or the NaN that `0.0 / 0.0` produces. */
  datatype Float = Finite(value: real) | NaN

  // ---------------------------------------------------------------------------
  // Flat vectors and the default gram comparison

  /** `flatten_profile`: the flat label vector of every gram, in profile order. */
  function FlattenProfile<L>(profile: seq<PQGram<L>>, fillerAs: L): (r: seq<seq<L>>)
    ensures |r| == |profile|
    ensures forall i :: 0 <= i < |profile| ==> r[i] == Concatenated(profile[i], fillerAs)
  {
    seq(|profile|, i requires 0 <= i < |profile| => Concatenated(profile[i], fillerAs))
  }

  /** Comparing two label vectors pair by pair over the length of the shorter
      one, as `zip` does: the first pair that is not `Equal` gives
      `(0.0, its ordering)`; when there is none the result is `(1.0, Equal)`. */
  function ZipCompare<L>(cmp: (L, L) -> Ordering, ls: seq<L>, rs: seq<L>): (r: (real, Ordering))
    ensures r == (1.0, Equal) || (r.0 == 0.0 && r.1 != Equal)
    ensures r.1 == Equal <==> forall k :: 0 <= k < Min(|ls|, |rs|) ==> cmp(ls[k], rs[k]) == Equal
    decreases |ls|
  {
    if ls == [] || rs == [] then (1.0, Equal)
    else if cmp(ls[0], rs[0]) == Equal then
      var r := ZipCompare(cmp, ls[1..], rs[1..]);
      assert forall k :: 1 <= k < Min(|ls|, |rs|) ==> ls[1..][k - 1] == ls[k] && rs[1..][k - 1] == rs[k];
      r
    else (0.0, cmp(ls[0], rs[0]))
  }

  /** The first position where the vectors differ decides the comparison. */
  lemma {:induction false} ZipCompareFirstDifference<L>(cmp: (L, L) -> Ordering, ls: seq<L>, rs: seq<L>, k: nat)
    requires k < |ls| && k < |rs|
    requires forall j :: 0 <= j < k ==> cmp(ls[j], rs[j]) == Equal
    requires cmp(ls[k], rs[k]) != Equal
    ensures ZipCompare(cmp, ls, rs) == (0.0, cmp(ls[k], rs[k]))
    decreases k
  {
    if k > 0 {
      assert cmp(ls[0], rs[0]) == Equal;
      assert forall j :: 0 <= j < k - 1 ==> ls[1..][j] == ls[j + 1] && rs[1..][j] == rs[j + 1];
      ZipCompareFirstDifference(cmp, ls[1..], rs[1..], k - 1);
    }
  }

  /** On vectors of one length the pairwise comparison is the lexicographic one. */
  lemma {:induction false} ZipCompareLex<L>(cmp: (L, L) -> Ordering, ls: seq<L>, rs: seq<L>)
    requires |ls| == |rs|
    ensures ZipCompare(cmp, ls, rs).1 == LexCmp(cmp, ls, rs)
    decreases |ls|
  {
    if ls != [] && cmp(ls[0], rs[0]) == Equal {
      ZipCompareLex(cmp, ls[1..], rs[1..]);
    }
  }

  /** Swapping the vectors keeps the similarity and reverses the ordering. */
  lemma {:induction false} ZipCompareFlip<L(!new)>(cmp: (L, L) -> Ordering, ls: seq<L>, rs: seq<L>)
    requires IsTotalOrder(cmp)
    ensures ZipCompare(cmp, rs, ls) == (ZipCompare(cmp, ls, rs).0, Reverse(ZipCompare(cmp, ls, rs).1))
    decreases |ls|
  {
    if ls != [] && rs != [] {
      if cmp(ls[0], rs[0]) == Equal {
        assert cmp(rs[0], ls[0]) == Equal;
        ZipCompareFlip(cmp, ls[1..], rs[1..]);
      } else {
        assert cmp(rs[0], ls[0]) == Reverse(cmp(ls[0], rs[0]));
      }
    }
  }

  /** What `default_gram_edit_distance` returns: the pairwise comparison of the
      two grams' flat vectors, fillers replaced by `fillerValue`. Labels are
      `Ord`, so `partial_cmp` is `Some(cmp)` and never fails. */
  function GramEditDistance<L>(cmp: (L, L) -> Ordering, left: PQGram<L>, right: PQGram<L>, fillerValue: L): (real, Ordering) {
    ZipCompare(cmp, Concatenated(left, fillerValue), Concatenated(right, fillerValue))
  }

  /** `default_gram_edit_distance`: walks the zipped flat vectors and returns at
      the first pair that is not `Equal`. */
  method DefaultGramEditDistance<L>(cmp: (L, L) -> Ordering, left: PQGram<L>, right: PQGram<L>, fillerValue: L)
    returns (distance: real, order: Ordering)
    ensures (distance, order) == GramEditDistance(cmp, left, right, fillerValue)
    ensures distance == 1.0 <==> order == Equal
  {
    var ls := Concat(left, fillerValue);
    var rs := Concat(right, fillerValue);
    for k := 0 to Min(|ls|, |rs|)
      invariant forall j :: 0 <= j < k ==> cmp(ls[j], rs[j]) == Equal
    {
      var ordering := cmp(ls[k], rs[k]);
      if ordering != Equal {
        ZipCompareFirstDifference(cmp, ls, rs, k);
        return 0.0, ordering;
      }
    }
    return 1.0, Equal;
  }

  /** `default_gram_edit_distance` as the function value `pqgram_distance` passes on. */
  function DefaultDistance<L>(cmp: (L, L) -> Ordering): (PQGram<L>, PQGram<L>, L) -> (real, Ordering) {
    (left: PQGram<L>, right: PQGram<L>, fillerValue: L) => GramEditDistance(cmp, left, right, fillerValue)
  }

  /** When the filler value is below every label and the grams have the same
      shape, the default comparison orders grams as the derived gram order does,
      and reports a match exactly for equal grams. */
  lemma DefaultOrderAgrees<L(!new)>(cmp: (L, L) -> Ordering, g: PQGram<L>, h: PQGram<L>, f: L)
    requires IsTotalOrder(cmp)
    requires |g.ancestors| == |h.ancestors| && |g.siblings| == |h.siblings|
    requires FillerBelow(cmp, f, g.ancestors + g.siblings) && FillerBelow(cmp, f, h.ancestors + h.siblings)
    ensures GramEditDistance(cmp, g, h, f).1 == GramCmp(cmp, g, h)
    ensures GramEditDistance(cmp, g, h, f).0 == 1.0 <==> g == h
  {
    ZipCompareLex(cmp, Concatenated(g, f), Concatenated(h, f));
    ResolvedCmp(cmp, f, g.ancestors + g.siblings, h.ancestors + h.siblings);
    GramCmpAsChain(cmp, g, h);
    GramTotalOrder(cmp);
    assert GramOrder(cmp)(g, h) == GramCmp(cmp, g, h);
  }

  /** A filler value that is also a label makes two different grams of real
      profiles match. With p = q = 1, the leaf `f` has the gram `([f], [*])` and
      the tree `f(f)` the gram `([f], [f])`. Under filler value `f` both flatten
      to `[f, f]`, so the default comparison scores them `(1.0, Equal)`, though
      the derived order keeps them apart. */
  lemma FillerCollision<L(!new)>(cmp: (L, L) -> Ordering, f: L)
    requires IsTotalOrder(cmp)
    ensures var g, h := PQGram([Label(f)], [Filler]), PQGram([Label(f)], [Label(f)]);
            && g in Profile(cmp, New(f), 1, 1, false)
            && h in Profile(cmp, AddNode(New(f), New(f)), 1, 1, false)
            && g != h
            && GramCmp(cmp, g, h) == Less
            && GramEditDistance(cmp, g, h, f) == (1.0, Equal)
  {
    var g: PQGram<L> := PQGram([Label(f)], [Filler]);
    var h: PQGram<L> := PQGram([Label(f)], [Label(f)]);
    var t := AddNode(New(f), New(f));
    var fill: seq<Node<L>> := [Filler];
    assert Repeat<Node<L>>(Filler, 1) == fill;
    assert Pushed(1, fill, Label(f)) == [Label(f)];
    assert Profile(cmp, New(f), 1, 1, false) == [g];
    assert ChildLabels(t)[..1] == [Label(f)];
    assert SiblingWindow(t, 1, 1) == [Label(f)] by {
      var xs := [Label(f)];
      assert xs[..0] == [];
      assert PushedAll(1, fill, xs[..0]) == fill;
      assert PushedAll(1, fill, xs) == Pushed(1, fill, Label(f));
    }
    assert h in ChildGrams(t, 1, 1, [Label(f)], 1);
    assert Concatenated(g, f) == [f, f] && Concatenated(h, f) == [f, f];
    assert cmp(f, f) == Equal;
    assert NodeCmp(cmp, Filler, Label(f)) == Less;
    assert LexCmp(NodeOrder(cmp), [Filler], [Label(f)]) == Less;
    assert LexCmp(NodeOrder(cmp), g.ancestors, h.ancestors) == Equal;
  }

  // ---------------------------------------------------------------------------
  // The intersection

  /** The filler value used: `alt_filler_value` when given, else `L::default()`. */
  function FillerValue<L>(altFillerValue: Option<L>, defaultLabel: L): L {
    match altFillerValue
    case Some(l) => l
    case None => defaultLabel
  }

  /** The sum the merge-join of `pqgram_profile_intersection` computes: compare
      the two front grams, add their similarity, and advance past the smaller
      one, or past both when they are `Equal`, until one profile runs out. */
  function MergeJoin<L>(left: seq<PQGram<L>>, right: seq<PQGram<L>>, filler: L,
                        dist: (PQGram<L>, PQGram<L>, L) -> (real, Ordering)): real
    decreases |left| + |right|
  {
    if left == [] || right == [] then 0.0
    else
      var r := dist(left[0], right[0], filler);
      r.0 + match r.1
            case Equal => MergeJoin(left[1..], right[1..], filler, dist)
            case Less => MergeJoin(left[1..], right, filler, dist)
            case Greater => MergeJoin(left, right[1..], filler, dist)
  }

  /** The number of comparisons the merge-join makes: each one advances at least
      one cursor, so there are at most `|left| + |right|` of them. */
  function MergeJoinSteps<L>(left: seq<PQGram<L>>, right: seq<PQGram<L>>, filler: L,
                             dist: (PQGram<L>, PQGram<L>, L) -> (real, Ordering)): (n: nat)
    ensures n <= |left| + |right|
    ensures n == 0 <==> left == [] || right == []
    decreases |left| + |right|
  {
    if left == [] || right == [] then 0
    else
      1 + match dist(left[0], right[0], filler).1
          case Equal => MergeJoinSteps(left[1..], right[1..], filler, dist)
          case Less => MergeJoinSteps(left[1..], right, filler, dist)
          case Greater => MergeJoinSteps(left, right[1..], filler, dist)
  }

  /** `pqgram_profile_intersection`: the merge-join loop over two profiles. */
  method ProfileIntersection<L>(left: seq<PQGram<L>>, right: seq<PQGram<L>>, altFillerValue: Option<L>,
                                defaultLabel: L, distanceFunction: (PQGram<L>, PQGram<L>, L) -> (real, Ordering))
    returns (intersection: real, ghost steps: nat)
    ensures intersection == MergeJoin(left, right, FillerValue(altFillerValue, defaultLabel), distanceFunction)
    ensures steps == MergeJoinSteps(left, right, FillerValue(altFillerValue, defaultLabel), distanceFunction)
    ensures steps <= |left| + |right|
  {
    intersection := 0.0;
    steps := 0;
    var i := 0;
    var j := 0;
    var maxi := |left|;
    var maxj := |right|;
    var filler := match altFillerValue case Some(l) => l case None => defaultLabel;
    while i < maxi && j < maxj
      invariant 0 <= i <= maxi && 0 <= j <= maxj
      invariant intersection + MergeJoin(left[i..], right[j..], filler, distanceFunction)
                == MergeJoin(left, right, filler, distanceFunction)
      invariant steps + MergeJoinSteps(left[i..], right[j..], filler, distanceFunction)
                == MergeJoinSteps(left, right, filler, distanceFunction)
      decreases maxi - i + maxj - j
    {
      var ig := left[i];
      var jg := right[j];
      var (distance, order) := distanceFunction(ig, jg, filler);
      assert left[i..][1..] == left[i + 1..] && right[j..][1..] == right[j + 1..];
      intersection := intersection + distance;
      steps := steps + 1;
      match order {
        case Equal =>
          i := i + 1;
          j := j + 1;
        case Less =>
          i := i + 1;
        case Greater =>
          j := j + 1;
      }
    }
  }

  /** The merge-join over flat vectors with the default comparison, counting
      the matches; it never counts more matches than the shorter side has vectors. */
  function VecMatches<L>(cmp: (L, L) -> Ordering, ls: seq<seq<L>>, rs: seq<seq<L>>): (n: nat)
    ensures n <= |ls| && n <= |rs|
    decreases |ls| + |rs|
  {
    if ls == [] || rs == [] then 0
    else match ZipCompare(cmp, ls[0], rs[0]).1
         case Equal => 1 + VecMatches(cmp, ls[1..], rs[1..])
         case Less => VecMatches(cmp, ls[1..], rs)
         case Greater => VecMatches(cmp, ls, rs[1..])
  }

  lemma FlattenTail<L>(profile: seq<PQGram<L>>, f: L)
    requires profile != []
    ensures FlattenProfile(profile, f)[1..] == FlattenProfile(profile[1..], f)
  {
  }

  /** With the default comparison the intersection is a whole number: the
      number of matches of the merge-join over the flattened profiles, so it
      lies between 0 and the length of the shorter profile. */
  lemma {:induction false} DefaultIntersection<L>(cmp: (L, L) -> Ordering, left: seq<PQGram<L>>, right: seq<PQGram<L>>, f: L)
    ensures MergeJoin(left, right, f, DefaultDistance(cmp))
            == VecMatches(cmp, FlattenProfile(left, f), FlattenProfile(right, f)) as real
    ensures 0.0 <= MergeJoin(left, right, f, DefaultDistance(cmp)) <= Min(|left|, |right|) as real
    decreases |left| + |right|
  {
    var ls := FlattenProfile(left, f);
    var rs := FlattenProfile(right, f);
    if left != [] && right != [] {
      FlattenTail(left, f);
      FlattenTail(right, f);
      var r := DefaultDistance(cmp)(left[0], right[0], f);
      assert r == ZipCompare(cmp, ls[0], rs[0]);
      match r.1
      case Equal => DefaultIntersection(cmp, left[1..], right[1..], f);
      case Less => DefaultIntersection(cmp, left[1..], right, f);
      case Greater => DefaultIntersection(cmp, left, right[1..], f);
    }
  }

  /** A profile matched against itself matches every one of its vectors. */
  lemma {:induction false} VecMatchesSelf<L(!new)>(cmp: (L, L) -> Ordering, ls: seq<seq<L>>)
    requires IsTotalOrder(cmp)
    ensures VecMatches(cmp, ls, ls) == |ls|
    decreases |ls|
  {
    if ls != [] {
      assert forall k :: 0 <= k < |ls[0]| ==> cmp(ls[0][k], ls[0][k]) == Equal;
      VecMatchesSelf(cmp, ls[1..]);
    }
  }

  /** Over a common prefix of length `k` every pair of vectors matches. */
  lemma {:induction false} VecMatchesCommonPrefix<L(!new)>(cmp: (L, L) -> Ordering, ls: seq<seq<L>>, rs: seq<seq<L>>, k: nat)
    requires IsTotalOrder(cmp)
    requires k <= |ls| && k <= |rs| && ls[..k] == rs[..k]
    ensures VecMatches(cmp, ls, rs) == k + VecMatches(cmp, ls[k..], rs[k..])
    decreases k
  {
    if k > 0 {
      assert ls[0] == ls[..k][0] == rs[..k][0] == rs[0];
      assert forall j :: 0 <= j < |ls[0]| ==> cmp(ls[0][j], ls[0][j]) == Equal;
      assert ls[1..][..k - 1] == ls[..k][1..] == rs[..k][1..] == rs[1..][..k - 1];
      VecMatchesCommonPrefix(cmp, ls[1..], rs[1..], k - 1);
      assert ls[1..][k - 1..] == ls[k..] && rs[1..][k - 1..] == rs[k..];
    }
  }

  /** The number of matches does not depend on which profile is on the left. */
  lemma {:induction false} VecMatchesSymmetric<L(!new)>(cmp: (L, L) -> Ordering, ls: seq<seq<L>>, rs: seq<seq<L>>)
    requires IsTotalOrder(cmp)
    ensures VecMatches(cmp, ls, rs) == VecMatches(cmp, rs, ls)
    decreases |ls| + |rs|
  {
    if ls != [] && rs != [] {
      ZipCompareFlip(cmp, ls[0], rs[0]);
      match ZipCompare(cmp, ls[0], rs[0]).1
      case Equal => VecMatchesSymmetric(cmp, ls[1..], rs[1..]);
      case Less => VecMatchesSymmetric(cmp, ls[1..], rs);
      case Greater => VecMatchesSymmetric(cmp, ls, rs[1..]);
    }
  }

  lemma MultisetBothHeads<T>(x: T, a: multiset<T>, b: multiset<T>)
    ensures (multiset{x} + a) * (multiset{x} + b) == multiset{x} + a * b
  {
    var lhs := (multiset{x} + a) * (multiset{x} + b);
    var rhs := multiset{x} + a * b;
    forall e ensures lhs[e] == rhs[e] {
    }
  }

  lemma MultisetMissingHead<T>(x: T, a: multiset<T>, b: multiset<T>)
    requires x !in b
    ensures (multiset{x} + a) * b == a * b
  {
    var lhs := (multiset{x} + a) * b;
    var rhs := a * b;
    forall e ensures lhs[e] == rhs[e] {
    }
  }

  /** Vectors that all have length `n`. */
  ghost predicate AllLength<L>(vs: seq<seq<L>>, n: nat) {
    forall i :: 0 <= i < |vs| ==> |vs[i]| == n
  }

  /** A vector smaller than the first of an ascending sequence occurs nowhere in it. */
  lemma BelowSorted<L(!new)>(cmp: (L, L) -> Ordering, x: seq<L>, vs: seq<seq<L>>)
    requires IsTotalOrder(cmp) && vs != [] && SortedBy(LexOrder(cmp), vs)
    requires LexCmp(cmp, x, vs[0]) == Less
    ensures x !in multiset(vs)
  {
    LexTotalOrder(cmp);
    forall k | 0 <= k < |vs| ensures vs[k] != x {
      assert LexOrder(cmp)(x, vs[0]) == Less;
      if k > 0 {
        assert LexOrder(cmp)(vs[0], vs[k]) != Greater;
      }
    }
    assert x !in vs;
  }

  /** On ascending sequences of vectors of one length the merge-join counts
      exactly the vectors the two sequences have in common, with multiplicity:
      the size of the multiset intersection. */
  lemma {:induction false} VecMatchesMultiset<L(!new)>(cmp: (L, L) -> Ordering, ls: seq<seq<L>>, rs: seq<seq<L>>, n: nat)
    requires IsTotalOrder(cmp)
    requires AllLength(ls, n) && AllLength(rs, n)
    requires SortedBy(LexOrder(cmp), ls) && SortedBy(LexOrder(cmp), rs)
    ensures VecMatches(cmp, ls, rs) == |multiset(ls) * multiset(rs)|
    decreases |ls| + |rs|
  {
    if ls == [] || rs == [] {
      assert multiset(ls) * multiset(rs) == multiset{};
    } else {
      var x, y := ls[0], rs[0];
      assert ls == [x] + ls[1..] && rs == [y] + rs[1..];
      assert multiset(ls) == multiset{x} + multiset(ls[1..]);
      assert multiset(rs) == multiset{y} + multiset(rs[1..]);
      SortedTail(LexOrder(cmp), ls);
      SortedTail(LexOrder(cmp), rs);
      assert AllLength(ls[1..], n) && AllLength(rs[1..], n);
      ZipCompareLex(cmp, x, y);
      match LexCmp(cmp, x, y)
      case Equal =>
        LexCmpEqual(cmp, x, y);
        VecMatchesMultiset(cmp, ls[1..], rs[1..], n);
        MultisetBothHeads(x, multiset(ls[1..]), multiset(rs[1..]));
      case Less =>
        BelowSorted(cmp, x, rs);
        VecMatchesMultiset(cmp, ls[1..], rs, n);
        MultisetMissingHead(x, multiset(ls[1..]), multiset(rs));
      case Greater =>
        LexCmpFlip(cmp, y, x);
        BelowSorted(cmp, y, ls);
        VecMatchesMultiset(cmp, ls, rs[1..], n);
        MultisetMissingHead(y, multiset(rs[1..]), multiset(ls));
        assert multiset(ls) * multiset(rs) == multiset(rs) * multiset(ls);
        assert multiset(ls) * multiset(rs[1..]) == multiset(rs[1..]) * multiset(ls);
    }
  }

  /** Every gram of `profile` has `p` ancestors and `q` siblings, and the filler
      value is below every label it holds. */
  ghost predicate UniformBelow<L>(cmp: (L, L) -> Ordering, f: L, profile: seq<PQGram<L>>, p: nat, q: nat) {
    forall i :: 0 <= i < |profile| ==>
      |profile[i].ancestors| == p && |profile[i].siblings| == q
      && FillerBelow(cmp, f, profile[i].ancestors + profile[i].siblings)
  }

  /** Flattening a profile sorted by the derived gram order, whose grams have
      one shape and whose labels are all above the filler value, gives ascending
      vectors of length `p + q`. */
  lemma SortedFlatten<L(!new)>(cmp: (L, L) -> Ordering, profile: seq<PQGram<L>>, f: L, p: nat, q: nat)
    requires IsTotalOrder(cmp)
    requires SortedBy(GramOrder(cmp), profile) && UniformBelow(cmp, f, profile, p, q)
    ensures AllLength(FlattenProfile(profile, f), p + q)
    ensures SortedBy(LexOrder(cmp), FlattenProfile(profile, f))
  {
    var vs := FlattenProfile(profile, f);
    forall i, j | 0 <= i < j < |vs| ensures LexOrder(cmp)(vs[i], vs[j]) != Greater {
      assert GramOrder(cmp)(profile[i], profile[j]) != Greater;
      DefaultOrderAgrees(cmp, profile[i], profile[j], f);
      ZipCompareLex(cmp, vs[i], vs[j]);
    }
  }

  // ---------------------------------------------------------------------------
  // The distance

  /** `1 - 2 * (intersection / union)` in `f64`, with `union` the total number of
      grams; an empty union divides zero by zero. */
  function DistanceFormula(intersection: real, union: nat): Float {
    if union == 0 then NaN else Finite(1.0 - 2.0 * (intersection / union as real))
  }

  /** For an intersection between 0 and half the union the distance lies in [0, 1];
      equal to half the union, it is 0. */
  lemma DistanceBounds(intersection: real, union: nat)
    requires union > 0 && 0.0 <= intersection && 2.0 * intersection <= union as real
    ensures DistanceFormula(intersection, union).Finite?
    ensures 0.0 <= DistanceFormula(intersection, union).value <= 1.0
    ensures 2.0 * intersection == union as real ==> DistanceFormula(intersection, union).value == 0.0
  {
    var u := union as real;
    var x := intersection / u;
    assert x * u == intersection;
    assert 0.0 <= x;
    assert 2.0 * x <= 1.0;
  }

  /** `pqgram_distance_with_fn`: the distance from the intersection and the
      total number of grams. */
  method PqgramDistanceWithFn<L>(left: seq<PQGram<L>>, right: seq<PQGram<L>>, altFillerValue: Option<L>,
                                 defaultLabel: L, distanceFunction: (PQGram<L>, PQGram<L>, L) -> (real, Ordering))
    returns (d: Float)
    ensures d == DistanceFormula(MergeJoin(left, right, FillerValue(altFillerValue, defaultLabel), distanceFunction),
                                 |left| + |right|)
  {
    var union := |left| + |right|;
    var intersection, steps := ProfileIntersection(left, right, altFillerValue, defaultLabel, distanceFunction);
    if union == 0 {
      d := NaN;
    } else {
      d := Finite(1.0 - 2.0 * (intersection / union as real));
    }
  }

  /** `pqgram_distance`: the distance with the default gram comparison. It is a
      value in [0, 1] for any two profiles that are not both empty. */
  method PqgramDistance<L>(cmp: (L, L) -> Ordering, left: seq<PQGram<L>>, right: seq<PQGram<L>>,
                           altFillerValue: Option<L>, defaultLabel: L)
    returns (d: Float)
    ensures d == DistanceFormula(VecMatches(cmp, FlattenProfile(left, FillerValue(altFillerValue, defaultLabel)),
                                            FlattenProfile(right, FillerValue(altFillerValue, defaultLabel))) as real,
                                 |left| + |right|)
    ensures |left| + |right| == 0 <==> d == NaN
    ensures d.Finite? ==> 0.0 <= d.value <= 1.0
  {
    d := PqgramDistanceWithFn(left, right, altFillerValue, defaultLabel, DefaultDistance(cmp));
    DefaultDistanceValue(cmp, left, right, FillerValue(altFillerValue, defaultLabel));
  }

  /** The distance with the default comparison is the formula applied to the
      number of matches of the flattened profiles, and it lies in [0, 1]. */
  lemma DefaultDistanceValue<L>(cmp: (L, L) -> Ordering, left: seq<PQGram<L>>, right: seq<PQGram<L>>, f: L)
    ensures DistanceFormula(MergeJoin(left, right, f, DefaultDistance(cmp)), |left| + |right|)
         == DistanceFormula(VecMatches(cmp, FlattenProfile(left, f), FlattenProfile(right, f)) as real, |left| + |right|)
    ensures |left| + |right| > 0 ==>
              var d := DistanceFormula(MergeJoin(left, right, f, DefaultDistance(cmp)), |left| + |right|);
              d.Finite? && 0.0 <= d.value <= 1.0
  {
    var m := MergeJoin(left, right, f, DefaultDistance(cmp));
    var n := |left| + |right|;
    assert 0.0 <= m && 2.0 * m <= n as real by {
      DefaultIntersection(cmp, left, right, f);
    }
    if n > 0 {
      DistanceBounds(m, n);
    }
    DefaultIntersection(cmp, left, right, f);
  }

  /** A non-empty profile is at distance 0 from itself. */
  lemma DistanceToSelf<L(!new)>(cmp: (L, L) -> Ordering, profile: seq<PQGram<L>>, f: L)
    requires IsTotalOrder(cmp) && profile != []
    ensures DistanceFormula(VecMatches(cmp, FlattenProfile(profile, f), FlattenProfile(profile, f)) as real,
                            |profile| + |profile|) == Finite(0.0)
  {
    VecMatchesSelf(cmp, FlattenProfile(profile, f));
    DistanceBounds(|profile| as real, |profile| + |profile|);
  }

  /** The distance does not depend on the order of its arguments. */
  lemma DistanceSymmetric<L(!new)>(cmp: (L, L) -> Ordering, left: seq<PQGram<L>>, right: seq<PQGram<L>>, f: L)
    requires IsTotalOrder(cmp)
    ensures DistanceFormula(VecMatches(cmp, FlattenProfile(left, f), FlattenProfile(right, f)) as real, |left| + |right|)
         == DistanceFormula(VecMatches(cmp, FlattenProfile(right, f), FlattenProfile(left, f)) as real, |right| + |left|)
  {
    VecMatchesSymmetric(cmp, FlattenProfile(left, f), FlattenProfile(right, f));
  }

  /** On profiles sorted by the derived gram order, of one shape, whose labels
      are all above the filler value, the default intersection is the size of
      the multiset intersection of the flattened profiles, so the distance is
      `1 - 2 |L ∩ R| / (|L| + |R|)`: the pq-gram distance. */
  lemma SortedIntersection<L(!new)>(cmp: (L, L) -> Ordering, left: seq<PQGram<L>>, right: seq<PQGram<L>>, f: L, p: nat, q: nat)
    requires IsTotalOrder(cmp)
    requires SortedBy(GramOrder(cmp), left) && UniformBelow(cmp, f, left, p, q)
    requires SortedBy(GramOrder(cmp), right) && UniformBelow(cmp, f, right, p, q)
    ensures MergeJoin(left, right, f, DefaultDistance(cmp))
            == |multiset(FlattenProfile(left, f)) * multiset(FlattenProfile(right, f))| as real
  {
    SortedFlatten(cmp, left, f, p, q);
    SortedFlatten(cmp, right, f, p, q);
    DefaultIntersection(cmp, left, right, f);
    VecMatchesMultiset(cmp, FlattenProfile(left, f), FlattenProfile(right, f), p + q);
  }

  /** The same profiles' distance, from the intersection. */
  lemma SortedDistance<L(!new)>(cmp: (L, L) -> Ordering, left: seq<PQGram<L>>, right: seq<PQGram<L>>, f: L, p: nat, q: nat)
    requires IsTotalOrder(cmp)
    requires SortedBy(GramOrder(cmp), left) && UniformBelow(cmp, f, left, p, q)
    requires SortedBy(GramOrder(cmp), right) && UniformBelow(cmp, f, right, p, q)
    requires |left| + |right| > 0
    ensures DistanceFormula(MergeJoin(left, right, f, DefaultDistance(cmp)), |left| + |right|)
            == Finite(1.0 - 2.0 * (|multiset(FlattenProfile(left, f)) * multiset(FlattenProfile(right, f))| as real
                                  / (|left| + |right|) as real))
  {
    SortedIntersection(cmp, left, right, f, p, q);
  }

  /** The intersection of the sorted profiles (`p, q >= 1`) of two trees whose
      labels are all above the filler value counts the flat vectors the two
      profiles have in common, and neither profile is empty; with `SortedDistance`
      their distance is `1 - 2 |P1 ∩ P2| / (|P1| + |P2|)`. */
  lemma TreeIntersection<L(!new)>(cmp: (L, L) -> Ordering, t1: Tree<L>, t2: Tree<L>, p: nat, q: nat, f: L)
    requires IsTotalOrder(cmp) && p >= 1 && q >= 1
    requires LabelsAbove(cmp, f, t1) && LabelsAbove(cmp, f, t2)
    ensures var P1 := Profile(cmp, t1, p, q, true);
            var P2 := Profile(cmp, t2, p, q, true);
            |P1| > 0 && |P2| > 0
            && MergeJoin(P1, P2, f, DefaultDistance(cmp))
               == |multiset(FlattenProfile(P1, f)) * multiset(FlattenProfile(P2, f))| as real
  {
    ProfileSize(cmp, t1, p, q, true);
    ProfileSize(cmp, t2, p, q, true);
    var P1 := Profile(cmp, t1, p, q, true);
    var P2 := Profile(cmp, t2, p, q, true);
    ProfileUniform(cmp, t1, p, q, f);
    SortedProfile(cmp, t1, p, q);
    ProfileUniform(cmp, t2, p, q, f);
    SortedProfile(cmp, t2, p, q);
    SortedIntersection(cmp, P1, P2, f, p, q);
  }

  lemma ProfileUniform<L>(cmp: (L, L) -> Ordering, t: Tree<L>, p: nat, q: nat, f: L)
    requires p >= 1 && q >= 1 && LabelsAbove(cmp, f, t)
    ensures UniformBelow(cmp, f, Profile(cmp, t, p, q, true), p, q)
  {
    var P := Profile(cmp, t, p, q, true);
    forall i | 0 <= i < |P|
      ensures |P[i].ancestors| == p && |P[i].siblings| == q
      ensures FillerBelow(cmp, f, P[i].ancestors + P[i].siblings)
    {
      ProfileGramShape(cmp, t, p, q, true, P[i]);
      ProfileLabelsBelow(cmp, f, t, p, q, true, P[i]);
    }
  }
}
