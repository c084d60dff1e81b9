/**
  The value types of a profile (src/pqgrams.rs): a gram node is a filler or a
  label, a gram is a window of ancestors and a window of siblings, both ordered
  as Rust derives it, and `concat` flattens a gram into labels.
 */
module Grams {
  import opened Order

  /** A node of a gram: `Filler` stands for a missing node. */
  datatype Node<L> = Filler | Label(value: L)

  /** The derived order on `Node`: `Filler` is below every label, labels compare by `cmp`. */
  function NodeCmp<L>(cmp: (L, L) -> Ordering, a: Node<L>, b: Node<L>): Ordering {
    match (a, b)
    case (Filler, Filler) => Equal
    case (Filler, Label(_)) => Less
    case (Label(_), Filler) => Greater
    case (Label(x), Label(y)) => cmp(x, y)
  }

  function NodeOrder<L>(cmp: (L, L) -> Ordering): (Node<L>, Node<L>) -> Ordering {
    (a: Node<L>, b: Node<L>) => NodeCmp(cmp, a, b)
  }

  /** The derived order on nodes is a total order when the label order is. */
  lemma NodeTotalOrder<L(!new)>(cmp: (L, L) -> Ordering)
    requires IsTotalOrder(cmp)
    ensures IsTotalOrder(NodeOrder(cmp))
  {
    forall a: Node<L>, b: Node<L>, c: Node<L> | NodeCmp(cmp, a, b) == Less && NodeCmp(cmp, b, c) == Less
      ensures NodeCmp(cmp, a, c) == Less
    {
    }
  }

  /** One gram: the window of ancestors and the window of siblings. `PQGram::new`
      is the constructor. */
  datatype PQGram<L> = PQGram(ancestors: seq<Node<L>>, siblings: seq<Node<L>>)

  /** The derived order on `PQGram`: ancestors first, then siblings, each lexicographically. */
  function GramCmp<L>(cmp: (L, L) -> Ordering, g: PQGram<L>, h: PQGram<L>): Ordering {
    var o := LexCmp(NodeOrder(cmp), g.ancestors, h.ancestors);
    if o == Equal then LexCmp(NodeOrder(cmp), g.siblings, h.siblings) else o
  }

  function GramOrder<L>(cmp: (L, L) -> Ordering): (PQGram<L>, PQGram<L>) -> Ordering {
    (g: PQGram<L>, h: PQGram<L>) => GramCmp(cmp, g, h)
  }

  /** The derived order on grams is a total order when the label order is. */
  lemma GramTotalOrder<L(!new)>(cmp: (L, L) -> Ordering)
    requires IsTotalOrder(cmp)
    ensures IsTotalOrder(GramOrder(cmp))
  {
    var n := NodeOrder(cmp);
    NodeTotalOrder(cmp);
    LexTotalOrder(n);
    assert IsTotalOrder(LexOrder(n));
    forall g: PQGram<L>, h: PQGram<L>
      ensures (GramCmp(cmp, g, h) == Equal <==> g == h)
      ensures (GramCmp(cmp, g, h) == Less <==> GramCmp(cmp, h, g) == Greater)
    {
      assert LexOrder(n)(g.ancestors, h.ancestors) == LexCmp(n, g.ancestors, h.ancestors);
      assert LexOrder(n)(h.ancestors, g.ancestors) == LexCmp(n, h.ancestors, g.ancestors);
      assert LexOrder(n)(g.siblings, h.siblings) == LexCmp(n, g.siblings, h.siblings);
      assert LexOrder(n)(h.siblings, g.siblings) == LexCmp(n, h.siblings, g.siblings);
    }
    forall g: PQGram<L>, h: PQGram<L>, k: PQGram<L> | GramCmp(cmp, g, h) == Less && GramCmp(cmp, h, k) == Less
      ensures GramCmp(cmp, g, k) == Less
    {
      assert LexOrder(n)(g.ancestors, h.ancestors) == LexCmp(n, g.ancestors, h.ancestors);
      assert LexOrder(n)(h.ancestors, k.ancestors) == LexCmp(n, h.ancestors, k.ancestors);
      assert LexOrder(n)(g.ancestors, k.ancestors) == LexCmp(n, g.ancestors, k.ancestors);
      assert LexOrder(n)(g.siblings, h.siblings) == LexCmp(n, g.siblings, h.siblings);
      assert LexOrder(n)(h.siblings, k.siblings) == LexCmp(n, h.siblings, k.siblings);
      assert LexOrder(n)(g.siblings, k.siblings) == LexCmp(n, g.siblings, k.siblings);
    }
  }

  /** A node as a label: `Filler` becomes `filler`, `Label(v)` becomes `v`. */
  function Resolve<L>(n: Node<L>, filler: L): L {
    match n
    case Filler => filler
    case Label(v) => v
  }

  /** Every node of `ns` as a label, in order. */
  function ResolveAll<L>(ns: seq<Node<L>>, filler: L): (r: seq<L>)
    ensures |r| == |ns|
    ensures forall k :: 0 <= k < |ns| ==> r[k] == Resolve(ns[k], filler)
  {
    if ns == [] then [] else [Resolve(ns[0], filler)] + ResolveAll(ns[1..], filler)
  }

  /** The flat label vector of a gram: its ancestors, then its siblings, with
      every filler replaced by `filler`. */
  function Concatenated<L>(g: PQGram<L>, filler: L): (r: seq<L>)
    ensures |r| == |g.ancestors| + |g.siblings|
    ensures forall k :: 0 <= k < |g.ancestors| ==> r[k] == Resolve(g.ancestors[k], filler)
    ensures forall k :: 0 <= k < |g.siblings| ==> r[|g.ancestors| + k] == Resolve(g.siblings[k], filler)
  {
    var r := ResolveAll(g.ancestors + g.siblings, filler);
    assert forall k :: 0 <= k < |g.siblings| ==> (g.ancestors + g.siblings)[|g.ancestors| + k] == g.siblings[k];
    r
  }

  /** `PQGram::concat`: walks the ancestors chained with the siblings and pushes
      the label (or `filler_as`) of each. */
  method Concat<L>(g: PQGram<L>, fillerAs: L) returns (bits: seq<L>)
    ensures bits == Concatenated(g, fillerAs)
  {
    var nodes := g.ancestors + g.siblings;
    bits := [];
    for k := 0 to |nodes|
      invariant |bits| == k
      invariant forall i :: 0 <= i < k ==> bits[i] == Resolve(nodes[i], fillerAs)
    {
      var bit := match nodes[k] case Label(v) => v case Filler => fillerAs;
      bits := bits + [bit];
    }
    assert bits == ResolveAll(nodes, fillerAs);
  }

  /** Every label in `ns` is above `filler` under `cmp`. */
  ghost predicate FillerBelow<L>(cmp: (L, L) -> Ordering, filler: L, ns: seq<Node<L>>) {
    forall n :: n in ns && n.Label? ==> cmp(filler, n.value) == Less
  }

  /** When the filler value is below every label present, replacing fillers by it
      does not change how two node sequences compare. */
  lemma {:induction false} ResolvedCmp<L(!new)>(cmp: (L, L) -> Ordering, filler: L, xs: seq<Node<L>>, ys: seq<Node<L>>)
    requires IsTotalOrder(cmp)
    requires FillerBelow(cmp, filler, xs) && FillerBelow(cmp, filler, ys)
    ensures LexCmp(cmp, ResolveAll(xs, filler), ResolveAll(ys, filler)) == LexCmp(NodeOrder(cmp), xs, ys)
    decreases |xs|
  {
    if xs != [] && ys != [] {
      assert ResolveAll(xs, filler)[1..] == ResolveAll(xs[1..], filler);
      assert ResolveAll(ys, filler)[1..] == ResolveAll(ys[1..], filler);
      assert cmp(Resolve(xs[0], filler), Resolve(ys[0], filler)) == NodeCmp(cmp, xs[0], ys[0]) by {
        assert xs[0] in xs && ys[0] in ys;
      }
      assert forall n :: n in xs[1..] ==> n in xs;
      assert forall n :: n in ys[1..] ==> n in ys;
      ResolvedCmp(cmp, filler, xs[1..], ys[1..]);
    }
  }

  /** The derived gram order is the lexicographic order of ancestors-then-siblings
      when the ancestor windows have the same length. */
  lemma GramCmpAsChain<L>(cmp: (L, L) -> Ordering, g: PQGram<L>, h: PQGram<L>)
    requires |g.ancestors| == |h.ancestors|
    ensures GramCmp(cmp, g, h) == LexCmp(NodeOrder(cmp), g.ancestors + g.siblings, h.ancestors + h.siblings)
  {
    LexCmpAppend(NodeOrder(cmp), g.ancestors, g.siblings, h.ancestors, h.siblings);
  }
}
