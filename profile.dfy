/**
  PQ-gram profile construction (`_profile_subtree` and `pqgram_profile` in
  src/pqgrams.rs). The functions state which grams the traversal emits, in
  order; the methods are the traversal itself over `BDeque` objects, proved to
  emit exactly those grams; the lemmas state the shape of every gram and the
  size of a profile.
 */
module Profiles {
  import opened Order
  import opened Grams
  import opened DefaultTree
  import opened BoundedDeque

  /** The labels of the children of `t`, in order. */
  function ChildLabels<L>(t: Tree<L>): (r: seq<Node<L>>)
    ensures |r| == |t.children|
    ensures forall i :: 0 <= i < |r| ==> r[i] == LabelOf(t.children[i])
  {
    seq(|t.children|, i requires 0 <= i < |t.children| => LabelOf(t.children[i]))
  }

  /** The sibling window while visiting `t`, once its first `k` children have been
      pushed onto a window filled with `q` fillers. */
  function SiblingWindow<L>(t: Tree<L>, q: nat, k: nat): seq<Node<L>>
    requires k <= |t.children|
  {
    PushedAll(q, Repeat(Filler, q), ChildLabels(t)[..k])
  }

  /** The sibling window once all children and then `n` fillers have been pushed. */
  function TailWindow<L>(t: Tree<L>, q: nat, n: nat): seq<Node<L>> {
    PushedAll(q, SiblingWindow(t, q, |t.children|), Repeat(Filler, n))
  }

  /** The grams emitted while visiting `t` and its descendants, given the contents
      `anc` of the ancestor window before `t`'s label is pushed onto it. A node
      with children needs `q >= 1`: its closing loop runs `q - 1` times. */
  function SubtreeGrams<L>(t: Tree<L>, p: nat, q: nat, anc: seq<Node<L>>): seq<PQGram<L>>
    requires q >= 1 || |t.children| == 0
    decreases t, 1, 0
  {
    var a := Pushed(p, anc, LabelOf(t));
    if |t.children| == 0 then [PQGram(a, Repeat(Filler, q))]
    else ChildGrams(t, p, q, a, |t.children|) + TailGrams(t, q, a, q - 1)
  }

  /** The grams emitted for the first `k` children of `t` (each child's own gram,
      then its subtree's grams), with `a` the ancestor window holding `t`'s label. */
  function ChildGrams<L>(t: Tree<L>, p: nat, q: nat, a: seq<Node<L>>, k: nat): seq<PQGram<L>>
    requires q >= 1 && k <= |t.children|
    decreases t, 0, k
  {
    if k == 0 then []
    else ChildGrams(t, p, q, a, k - 1) + [PQGram(a, SiblingWindow(t, q, k))]
         + SubtreeGrams(t.children[k - 1], p, q, a)
  }

  /** The first `n` of the grams that close the sibling list of `t`. */
  function TailGrams<L>(t: Tree<L>, q: nat, a: seq<Node<L>>, n: nat): seq<PQGram<L>>
    decreases n
  {
    if n == 0 then [] else TailGrams(t, q, a, n - 1) + [PQGram(a, TailWindow(t, q, n))]
  }

  /** The profile of `t`: the grams of the whole tree from an ancestor window of
      `p` fillers, sorted by the derived gram order when `sort` holds. */
  function Profile<L>(cmp: (L, L) -> Ordering, t: Tree<L>, p: nat, q: nat, sort: bool): seq<PQGram<L>>
    requires q >= 1 || |t.children| == 0
  {
    var prof := SubtreeGrams(t, p, q, Repeat(Filler, p));
    if sort then Sort(GramOrder(cmp), prof) else prof
  }

  /** `_profile_subtree`: pushes the node's label onto `ancestors`, fills a fresh
      sibling window of size `q`, emits a gram per child followed by that child's
      subtree (visited with a clone of the ancestor window), then `q - 1` closing
      grams. A leaf emits one gram. */
  method ProfileSubtree<L>(subtree: Tree<L>, p: nat, q: nat, ancestors: BDeque<Node<L>>)
    returns (pqgrams: seq<PQGram<L>>)
    requires q >= 1 || |subtree.children| == 0
    modifies ancestors
    ensures ancestors.state == Pushed(ancestors.maxlen, old(ancestors.state), LabelOf(subtree))
    ensures pqgrams == SubtreeGrams(subtree, ancestors.maxlen, q, old(ancestors.state))
    decreases subtree, 1, 0
  {
    var evicted := ancestors.PushBack(LabelOf(subtree));
    ghost var a := ancestors.state;
    var siblings := new BDeque<Node<L>>(q);
    siblings.FillWith(Filler);
    assert ChildLabels(subtree)[..0] == [];
    pqgrams := [];
    var children := ChildrenOf(subtree);
    if |children| == 0 {
      var anc := ancestors.CopyState();
      var sib := siblings.CopyState();
      pqgrams := pqgrams + [PQGram(anc, sib)];
      assert pqgrams == [PQGram(a, Repeat(Filler, q))];
    } else {
      pqgrams := EmitInner(subtree, p, q, ancestors, siblings);
    }
  }

  /** The part of `_profile_subtree` for a node with children: the gram of each
      child and its subtree, then the closing grams. */
  method EmitInner<L>(subtree: Tree<L>, p: nat, q: nat, ancestors: BDeque<Node<L>>, siblings: BDeque<Node<L>>)
    returns (pqgrams: seq<PQGram<L>>)
    requires q >= 1 && siblings != ancestors && siblings.maxlen == q
    requires siblings.state == SiblingWindow(subtree, q, 0)
    modifies siblings
    ensures pqgrams == ChildGrams(subtree, ancestors.maxlen, q, ancestors.state, |subtree.children|)
                       + TailGrams(subtree, q, ancestors.state, q - 1)
    decreases subtree, 0, 1
  {
    var heads := EmitChildren(subtree, p, q, ancestors, siblings);
    var tails := EmitTail(subtree, q, ancestors, siblings);
    pqgrams := heads + tails;
  }

  /** The loop of `_profile_subtree` over the children: for each child, pushes its
      label onto the sibling window, emits a gram, then the child's subtree. */
  method EmitChildren<L>(subtree: Tree<L>, p: nat, q: nat, ancestors: BDeque<Node<L>>, siblings: BDeque<Node<L>>)
    returns (pqgrams: seq<PQGram<L>>)
    requires q >= 1 && siblings != ancestors && siblings.maxlen == q
    requires siblings.state == SiblingWindow(subtree, q, 0)
    modifies siblings
    ensures siblings.state == SiblingWindow(subtree, q, |subtree.children|)
    ensures pqgrams == ChildGrams(subtree, ancestors.maxlen, q, ancestors.state, |subtree.children|)
    decreases subtree, 0, 0
  {
    var children := ChildrenOf(subtree);
    pqgrams := [];
    for k := 0 to |children|
      invariant siblings.state == SiblingWindow(subtree, q, k)
      invariant pqgrams == ChildGrams(subtree, ancestors.maxlen, q, ancestors.state, k)
    {
      var child := children[k];
      var evicted := siblings.PushBack(LabelOf(child));
      SiblingWindowStep(subtree, q, k);
      var anc := ancestors.CopyState();
      var sib := siblings.CopyState();
      pqgrams := pqgrams + [PQGram(anc, sib)];
      var branch := ancestors.Clone();
      var grandchildren := ProfileSubtree(child, p, q, branch);
      pqgrams := pqgrams + grandchildren;
    }
  }

  /** The closing loop of `_profile_subtree`: `q - 1` times, pushes a filler onto
      the sibling window and emits a gram. */
  method EmitTail<L>(subtree: Tree<L>, q: nat, ancestors: BDeque<Node<L>>, siblings: BDeque<Node<L>>)
    returns (pqgrams: seq<PQGram<L>>)
    requires q >= 1 && siblings != ancestors && siblings.maxlen == q
    requires siblings.state == SiblingWindow(subtree, q, |subtree.children|)
    modifies siblings
    ensures pqgrams == TailGrams(subtree, q, ancestors.state, q - 1)
  {
    pqgrams := [];
    assert Repeat<Node<L>>(Filler, 0) == [];
    for n := 0 to q - 1
      invariant siblings.state == TailWindow(subtree, q, n)
      invariant pqgrams == TailGrams(subtree, q, ancestors.state, n)
    {
      var evicted := siblings.PushBack(Filler);
      TailWindowStep(subtree, q, n);
      var anc := ancestors.CopyState();
      var sib := siblings.CopyState();
      pqgrams := pqgrams + [PQGram(anc, sib)];
    }
  }

  lemma SiblingWindowStep<L>(t: Tree<L>, q: nat, k: nat)
    requires k < |t.children|
    ensures SiblingWindow(t, q, k + 1) == Pushed(q, SiblingWindow(t, q, k), LabelOf(t.children[k]))
  {
    assert ChildLabels(t)[..k + 1][..k] == ChildLabels(t)[..k];
  }

  lemma TailWindowStep<L>(t: Tree<L>, q: nat, n: nat)
    ensures TailWindow(t, q, n + 1) == Pushed(q, TailWindow(t, q, n), Filler)
  {
    assert Repeat<Node<L>>(Filler, n + 1)[..n] == Repeat(Filler, n);
  }

  /** `pqgram_profile`: an ancestor window of size `p` filled with fillers, the
      traversal from the root, then the optional sort. */
  method PqgramProfile<L>(cmp: (L, L) -> Ordering, tree: Tree<L>, p: nat, q: nat, sort: bool)
    returns (prof: seq<PQGram<L>>)
    requires q >= 1 || |tree.children| == 0
    ensures prof == Profile(cmp, tree, p, q, sort)
  {
    var ancestors := new BDeque<Node<L>>(p);
    ancestors.FillWith(Filler);
    prof := ProfileSubtree(tree, p, q, ancestors);
    if sort {
      prof := Sort(GramOrder(cmp), prof);
    }
  }

  // ---------------------------------------------------------------------------
  // The number of grams

  /** The size of a profile, counted node by node: a leaf contributes one gram,
      a node with k >= 1 children k + (q - 1) grams. */
  function GramCount<L>(t: Tree<L>, q: nat): nat
    requires q >= 1
    decreases t, 1
  {
    if |t.children| == 0 then 1
    else |t.children| + (q - 1) + ChildrenGramCount(t, q, |t.children|)
  }

  /** The sum of `GramCount` over the first `k` children of `t`. */
  function ChildrenGramCount<L>(t: Tree<L>, q: nat, k: nat): nat
    requires q >= 1 && k <= |t.children|
    decreases t, 0, k
  {
    if k == 0 then 0 else ChildrenGramCount(t, q, k - 1) + GramCount(t.children[k - 1], q)
  }

  lemma {:induction false} TailGramsLength<L>(t: Tree<L>, q: nat, a: seq<Node<L>>, n: nat)
    ensures |TailGrams(t, q, a, n)| == n
  {
    if n > 0 {
      TailGramsLength(t, q, a, n - 1);
    }
  }

  /** The traversal emits `GramCount(t, q)` grams for `t`, whatever the window. */
  lemma {:induction false} SubtreeGramsCount<L>(t: Tree<L>, p: nat, q: nat, anc: seq<Node<L>>)
    requires q >= 1
    ensures |SubtreeGrams(t, p, q, anc)| == GramCount(t, q)
    decreases t, 1, 0
  {
    if |t.children| > 0 {
      var a := Pushed(p, anc, LabelOf(t));
      ChildGramsCount(t, p, q, a, |t.children|);
      TailGramsLength(t, q, a, q - 1);
    }
  }

  lemma {:induction false} ChildGramsCount<L>(t: Tree<L>, p: nat, q: nat, a: seq<Node<L>>, k: nat)
    requires q >= 1 && k <= |t.children|
    ensures |ChildGrams(t, p, q, a, k)| == k + ChildrenGramCount(t, q, k)
    decreases t, 0, k
  {
    if k > 0 {
      ChildGramsCount(t, p, q, a, k - 1);
      SubtreeGramsCount(t.children[k - 1], p, q, a);
    }
  }

  /** A profile, sorted or not, has `GramCount(t, q)` grams. */
  lemma ProfileSize<L>(cmp: (L, L) -> Ordering, t: Tree<L>, p: nat, q: nat, sort: bool)
    requires q >= 1
    ensures |Profile(cmp, t, p, q, sort)| == GramCount(t, q)
  {
    var prof := SubtreeGrams(t, p, q, Repeat(Filler, p));
    SubtreeGramsCount(t, p, q, Repeat(Filler, p));
    assert |multiset(Sort(GramOrder(cmp), prof))| == |multiset(prof)|;
  }

  // ---------------------------------------------------------------------------
  // The windows

  /** `path` picks a node of `t`: each element is the index of the child to descend into. */
  ghost predicate IsPath<L>(t: Tree<L>, path: seq<nat>)
    decreases |path|
  {
    path == [] || (path[0] < |t.children| && IsPath(t.children[path[0]], path[1..]))
  }

  /** The labels on the way from the root of `t` down to the node `path` picks, both included. */
  ghost function PathLabels<L>(t: Tree<L>, path: seq<nat>): seq<Node<L>>
    requires IsPath(t, path)
    decreases |path|
  {
    [LabelOf(t)] + (if path == [] then [] else PathLabels(t.children[path[0]], path[1..]))
  }

  lemma PushedOne<T>(maxlen: nat, s: seq<T>, x: T)
    requires maxlen >= 1 && |s| == maxlen
    ensures Pushed(maxlen, s, x) == Last(s + [x], maxlen)
  {
    assert [x][..0] == [];
    PushedAllWindow(maxlen, s, [x]);
  }

  /** While the children of `t` are pushed, the sibling window holds the last `q`
      of `q` fillers followed by the labels of the children pushed so far. */
  lemma SiblingWindowContents<L>(t: Tree<L>, q: nat, k: nat)
    requires q >= 1 && k <= |t.children|
    ensures SiblingWindow(t, q, k) == Last(Repeat(Filler, q) + ChildLabels(t)[..k], q)
  {
    PushedAllWindow(q, Repeat(Filler, q), ChildLabels(t)[..k]);
  }

  /** After the `n`-th closing filler, the sibling window holds the last `q` of
      `q` fillers, all the children's labels and `n` more fillers. */
  lemma TailWindowContents<L>(t: Tree<L>, q: nat, n: nat)
    requires q >= 1
    ensures TailWindow(t, q, n) == Last(Repeat(Filler, q) + ChildLabels(t) + Repeat(Filler, n), q)
  {
    var labels := ChildLabels(t);
    assert labels[..|t.children|] == labels;
    SiblingWindowContents(t, q, |t.children|);
    var w := SiblingWindow(t, q, |t.children|);
    PushedAllWindow(q, w, Repeat(Filler, n));
    LastOfLast(Repeat(Filler, q) + labels, Repeat(Filler, n), q);
  }

  lemma {:induction false} TailGramsWindows<L>(t: Tree<L>, q: nat, a: seq<Node<L>>, n: nat, g: PQGram<L>)
    requires q >= 1 && g in TailGrams(t, q, a, n)
    ensures g.ancestors == a && |g.siblings| == q
  {
    if g != PQGram(a, TailWindow(t, q, n)) {
      TailGramsWindows(t, q, a, n - 1, g);
    } else {
      TailWindowContents(t, q, n);
    }
  }

  /** The grams the visit of `t` itself emits, with `a` the ancestor window
      holding its label: a leaf's one gram, or one gram per child followed by the
      `q - 1` closing grams. The grams of the children's subtrees belong to the
      visits of those children. */
  function VisitGrams<L>(t: Tree<L>, q: nat, a: seq<Node<L>>): seq<PQGram<L>>
    requires q >= 1
  {
    if |t.children| == 0 then [PQGram(a, Repeat(Filler, q))]
    else HeadGrams(t, q, a, |t.children|) + TailGrams(t, q, a, q - 1)
  }

  /** The grams emitted right after each of the first `k` children of `t` is
      pushed onto the sibling window. */
  function HeadGrams<L>(t: Tree<L>, q: nat, a: seq<Node<L>>, k: nat): seq<PQGram<L>>
    requires k <= |t.children|
  {
    if k == 0 then [] else HeadGrams(t, q, a, k - 1) + [PQGram(a, SiblingWindow(t, q, k))]
  }

  /** The grams emitted by the visit of the node that `path` picks in `t`, given
      the contents `anc` of the ancestor window before `t` is visited. */
  ghost function NodeGrams<L>(t: Tree<L>, p: nat, q: nat, anc: seq<Node<L>>, path: seq<nat>): seq<PQGram<L>>
    requires q >= 1 && IsPath(t, path)
    decreases |path|
  {
    var a := Pushed(p, anc, LabelOf(t));
    if path == [] then VisitGrams(t, q, a) else NodeGrams(t.children[path[0]], p, q, a, path[1..])
  }

  lemma {:induction false} HeadGramsWindows<L>(t: Tree<L>, q: nat, a: seq<Node<L>>, k: nat, g: PQGram<L>)
    requires q >= 1 && k <= |t.children| && g in HeadGrams(t, q, a, k)
    ensures g.ancestors == a && |g.siblings| == q
    decreases k
  {
    assert k > 0;
    if g in HeadGrams(t, q, a, k - 1) {
      HeadGramsWindows(t, q, a, k - 1, g);
    } else {
      SiblingWindowContents(t, q, k);
    }
  }

  /** Every gram of a node's own visit carries the window `a` holding its label,
      and `q` siblings. */
  lemma VisitGramsWindows<L>(t: Tree<L>, q: nat, a: seq<Node<L>>, g: PQGram<L>)
    requires q >= 1 && g in VisitGrams(t, q, a)
    ensures g.ancestors == a && |g.siblings| == q
  {
    if |t.children| > 0 {
      if g in HeadGrams(t, q, a, |t.children|) {
        HeadGramsWindows(t, q, a, |t.children|, g);
      } else {
        TailGramsWindows(t, q, a, q - 1, g);
      }
    }
  }

  /** Every gram emitted by the visit of the node `path` picks has, as ancestors,
      the last `p` of the window before `t` followed by the labels on the path
      from `t` down to that node, both included, and it has `q` siblings. */
  lemma {:induction false} NodeGramsWindows<L>(t: Tree<L>, p: nat, q: nat, anc: seq<Node<L>>, path: seq<nat>, g: PQGram<L>)
    requires p >= 1 && q >= 1 && |anc| == p && IsPath(t, path)
    requires g in NodeGrams(t, p, q, anc, path)
    ensures g.ancestors == Last(anc + PathLabels(t, path), p)
    ensures |g.siblings| == q
    decreases |path|
  {
    var a := Pushed(p, anc, LabelOf(t));
    PushedOne(p, anc, LabelOf(t));
    if path == [] {
      VisitGramsWindows(t, q, a, g);
      assert PathLabels(t, path) == [LabelOf(t)];
    } else {
      var i, sub := path[0], path[1..];
      NodeGramsWindows(t.children[i], p, q, a, sub, g);
      assert path == [i] + sub;
      ChildPath(t, i, sub);
      PushedThenLast(p, anc, LabelOf(t), PathLabels(t.children[i], sub));
    }
  }

  lemma {:induction false} HeadGramsHas<L>(t: Tree<L>, q: nat, a: seq<Node<L>>, k: nat, n: nat)
    requires 1 <= k <= n <= |t.children|
    ensures PQGram(a, SiblingWindow(t, q, k)) in HeadGrams(t, q, a, n)
    decreases n
  {
    if k < n {
      HeadGramsHas(t, q, a, k, n - 1);
    }
  }

  /** Every gram of the traversal of `t` is emitted by the visit of one of its nodes. */
  lemma {:induction false} SubtreeGramsVisited<L>(t: Tree<L>, p: nat, q: nat, anc: seq<Node<L>>, g: PQGram<L>)
    requires q >= 1 && g in SubtreeGrams(t, p, q, anc)
    ensures exists path :: IsPath(t, path) && g in NodeGrams(t, p, q, anc, path)
    decreases t, 1, 0
  {
    var a := Pushed(p, anc, LabelOf(t));
    assert IsPath(t, []);
    if |t.children| > 0 && g in ChildGrams(t, p, q, a, |t.children|) {
      ChildGramsVisited(t, p, q, anc, |t.children|, g);
    } else {
      assert g in NodeGrams(t, p, q, anc, []);
    }
  }

  lemma {:induction false} ChildGramsVisited<L>(t: Tree<L>, p: nat, q: nat, anc: seq<Node<L>>, k: nat, g: PQGram<L>)
    requires q >= 1 && k <= |t.children|
    requires g in ChildGrams(t, p, q, Pushed(p, anc, LabelOf(t)), k)
    ensures exists path :: IsPath(t, path) && g in NodeGrams(t, p, q, anc, path)
    decreases t, 0, k
  {
    var a := Pushed(p, anc, LabelOf(t));
    assert k > 0;
    if g in ChildGrams(t, p, q, a, k - 1) {
      ChildGramsVisited(t, p, q, anc, k - 1, g);
    } else if g == PQGram(a, SiblingWindow(t, q, k)) {
      HeadGramsHas(t, q, a, k, |t.children|);
      assert IsPath(t, []) && g in NodeGrams(t, p, q, anc, []);
    } else {
      var child := t.children[k - 1];
      assert g in SubtreeGrams(child, p, q, a);
      SubtreeGramsVisited(child, p, q, a, g);
      var sub :| IsPath(child, sub) && g in NodeGrams(child, p, q, a, sub);
      var path := [k - 1] + sub;
      assert path[0] == k - 1 && path[1..] == sub;
      assert IsPath(t, path) && g in NodeGrams(t, p, q, anc, path);
    }
  }

  lemma {:induction false} HeadGramsEmitted<L>(t: Tree<L>, p: nat, q: nat, a: seq<Node<L>>, k: nat, g: PQGram<L>)
    requires q >= 1 && k <= |t.children| && g in HeadGrams(t, q, a, k)
    ensures g in ChildGrams(t, p, q, a, k)
    decreases k
  {
    assert k > 0;
    if g in HeadGrams(t, q, a, k - 1) {
      HeadGramsEmitted(t, p, q, a, k - 1, g);
    }
  }

  lemma {:induction false} ChildSubtreeEmitted<L>(t: Tree<L>, p: nat, q: nat, a: seq<Node<L>>, i: nat, k: nat, g: PQGram<L>)
    requires q >= 1 && i < k <= |t.children| && g in SubtreeGrams(t.children[i], p, q, a)
    ensures g in ChildGrams(t, p, q, a, k)
    decreases k
  {
    if i < k - 1 {
      ChildSubtreeEmitted(t, p, q, a, i, k - 1, g);
    }
  }

  /** Every gram emitted by the visit of a node of `t` is a gram of the traversal of `t`. */
  lemma {:induction false} NodeGramsEmitted<L>(t: Tree<L>, p: nat, q: nat, anc: seq<Node<L>>, path: seq<nat>, g: PQGram<L>)
    requires q >= 1 && IsPath(t, path) && g in NodeGrams(t, p, q, anc, path)
    ensures g in SubtreeGrams(t, p, q, anc)
    decreases |path|
  {
    var a := Pushed(p, anc, LabelOf(t));
    if path == [] {
      if |t.children| > 0 && g in HeadGrams(t, q, a, |t.children|) {
        HeadGramsEmitted(t, p, q, a, |t.children|, g);
      }
    } else {
      var i := path[0];
      NodeGramsEmitted(t.children[i], p, q, a, path[1..], g);
      ChildSubtreeEmitted(t, p, q, a, i, |t.children|, g);
    }
  }

  /** The grams of the traversal of `t` are exactly the grams emitted by the
      visits of its nodes. */
  lemma SubtreeGramsAreVisits<L>(t: Tree<L>, p: nat, q: nat, anc: seq<Node<L>>, g: PQGram<L>)
    requires q >= 1
    ensures g in SubtreeGrams(t, p, q, anc) <==> exists path :: IsPath(t, path) && g in NodeGrams(t, p, q, anc, path)
  {
    if g in SubtreeGrams(t, p, q, anc) {
      SubtreeGramsVisited(t, p, q, anc, g);
    }
    if exists path :: IsPath(t, path) && g in NodeGrams(t, p, q, anc, path) {
      var path :| IsPath(t, path) && g in NodeGrams(t, p, q, anc, path);
      NodeGramsEmitted(t, p, q, anc, path, g);
    }
  }

  /** Every gram of the traversal of `t` is emitted by the visit of some node of
      `t`, and carries as ancestors the last `p` of the window before `t`
      followed by the labels on the path from `t` down to THAT node; so every
      ancestor window has length `p` and every sibling window length `q`. */
  lemma SubtreeGramWindows<L>(t: Tree<L>, p: nat, q: nat, anc: seq<Node<L>>, g: PQGram<L>)
    requires p >= 1 && q >= 1 && |anc| == p
    requires g in SubtreeGrams(t, p, q, anc)
    ensures exists path :: IsPath(t, path) && g in NodeGrams(t, p, q, anc, path)
                           && g.ancestors == Last(anc + PathLabels(t, path), p)
    ensures |g.ancestors| == p && |g.siblings| == q
  {
    SubtreeGramsVisited(t, p, q, anc, g);
    var path :| IsPath(t, path) && g in NodeGrams(t, p, q, anc, path);
    NodeGramsWindows(t, p, q, anc, path, g);
  }

  /** Pushing `x` onto a full window and then taking the last `maxlen` after `rest`
      is taking the last `maxlen` of the window, `x` and `rest`. */
  lemma PushedThenLast<T>(maxlen: nat, s: seq<T>, x: T, rest: seq<T>)
    requires maxlen >= 1 && |s| == maxlen
    ensures |Pushed(maxlen, s, x) + rest| >= maxlen
    ensures Last(Pushed(maxlen, s, x) + rest, maxlen) == Last(s + ([x] + rest), maxlen)
  {
    PushedOne(maxlen, s, x);
    LastOfLast(s + [x], rest, maxlen);
    assert s + [x] + rest == s + ([x] + rest);
  }

  /** A path of child `i` preceded by `i` is a path of `t`, whose labels are the
      label of `t` followed by the child's path labels. */
  lemma ChildPath<L>(t: Tree<L>, i: nat, sub: seq<nat>)
    requires i < |t.children| && IsPath(t.children[i], sub)
    ensures IsPath(t, [i] + sub)
    ensures PathLabels(t, [i] + sub) == [LabelOf(t)] + PathLabels(t.children[i], sub)
  {
    assert ([i] + sub)[1..] == sub;
  }

  // ---------------------------------------------------------------------------
  // The labels in the windows

  /** Every label of `t` is above `f` under `cmp`. */
  ghost predicate LabelsAbove<L>(cmp: (L, L) -> Ordering, f: L, t: Tree<L>)
    decreases t
  {
    cmp(f, t.tag) == Less && forall i :: 0 <= i < |t.children| ==> LabelsAbove(cmp, f, t.children[i])
  }

  /** Pushing a label above `f` onto a window whose labels are above `f` keeps it so. */
  lemma PushedBelow<L>(cmp: (L, L) -> Ordering, f: L, p: nat, anc: seq<Node<L>>, x: L)
    requires FillerBelow(cmp, f, anc) && cmp(f, x) == Less
    ensures FillerBelow(cmp, f, Pushed(p, anc, Label(x)))
  {
    assert forall e :: e in Pushed(p, anc, Label(x)) ==> e in anc || e == Label(x);
  }

  /** The sibling windows of `t` hold only fillers and labels of children of `t`. */
  lemma SiblingWindowBelow<L>(cmp: (L, L) -> Ordering, f: L, t: Tree<L>, q: nat, k: nat)
    requires k <= |t.children| && LabelsAbove(cmp, f, t)
    ensures FillerBelow(cmp, f, SiblingWindow(t, q, k))
  {
    var labels := ChildLabels(t)[..k];
    PushedAllMembers(q, Repeat(Filler, q), labels);
    forall n | n in SiblingWindow(t, q, k) && n.Label? ensures cmp(f, n.value) == Less {
      var i :| 0 <= i < k && labels[i] == n;
      assert LabelsAbove(cmp, f, t.children[i]);
    }
  }

  lemma TailWindowBelow<L>(cmp: (L, L) -> Ordering, f: L, t: Tree<L>, q: nat, n: nat)
    requires LabelsAbove(cmp, f, t)
    ensures FillerBelow(cmp, f, TailWindow(t, q, n))
  {
    SiblingWindowBelow(cmp, f, t, q, |t.children|);
    PushedAllMembers(q, SiblingWindow(t, q, |t.children|), Repeat(Filler, n));
  }

  lemma {:induction false} TailGramsBelow<L>(cmp: (L, L) -> Ordering, f: L, t: Tree<L>, q: nat, a: seq<Node<L>>, n: nat, g: PQGram<L>)
    requires LabelsAbove(cmp, f, t) && FillerBelow(cmp, f, a) && g in TailGrams(t, q, a, n)
    ensures FillerBelow(cmp, f, g.ancestors + g.siblings)
  {
    if g != PQGram(a, TailWindow(t, q, n)) {
      TailGramsBelow(cmp, f, t, q, a, n - 1, g);
    } else {
      TailWindowBelow(cmp, f, t, q, n);
    }
  }

  /** When every label of `t` and of the window `anc` is above `f`, so is every
      label of every gram emitted while visiting `t`. */
  lemma {:induction false} SubtreeGramsBelow<L>(cmp: (L, L) -> Ordering, f: L, t: Tree<L>, p: nat, q: nat, anc: seq<Node<L>>, g: PQGram<L>)
    requires q >= 1 && LabelsAbove(cmp, f, t) && FillerBelow(cmp, f, anc)
    requires g in SubtreeGrams(t, p, q, anc)
    ensures FillerBelow(cmp, f, g.ancestors + g.siblings)
    decreases t, 1, 0
  {
    var a := Pushed(p, anc, LabelOf(t));
    PushedBelow(cmp, f, p, anc, t.tag);
    if |t.children| == 0 {
    } else if g in ChildGrams(t, p, q, a, |t.children|) {
      ChildGramsBelow(cmp, f, t, p, q, a, |t.children|, g);
    } else {
      TailGramsBelow(cmp, f, t, q, a, q - 1, g);
    }
  }

  lemma {:induction false} ChildGramsBelow<L>(cmp: (L, L) -> Ordering, f: L, t: Tree<L>, p: nat, q: nat, a: seq<Node<L>>, k: nat, g: PQGram<L>)
    requires q >= 1 && k <= |t.children| && LabelsAbove(cmp, f, t) && FillerBelow(cmp, f, a)
    requires g in ChildGrams(t, p, q, a, k)
    ensures FillerBelow(cmp, f, g.ancestors + g.siblings)
    decreases t, 0, k
  {
    if g in ChildGrams(t, p, q, a, k - 1) {
      ChildGramsBelow(cmp, f, t, p, q, a, k - 1, g);
    } else if g == PQGram(a, SiblingWindow(t, q, k)) {
      SiblingWindowBelow(cmp, f, t, q, k);
    } else {
      assert LabelsAbove(cmp, f, t.children[k - 1]);
      SubtreeGramsBelow(cmp, f, t.children[k - 1], p, q, a, g);
    }
  }

  /** When every label of `t` is above `f`, so is every label in its profile. */
  lemma ProfileLabelsBelow<L>(cmp: (L, L) -> Ordering, f: L, t: Tree<L>, p: nat, q: nat, sort: bool, g: PQGram<L>)
    requires q >= 1 && LabelsAbove(cmp, f, t)
    requires g in Profile(cmp, t, p, q, sort)
    ensures FillerBelow(cmp, f, g.ancestors + g.siblings)
  {
    var prof := SubtreeGrams(t, p, q, Repeat(Filler, p));
    assert g in multiset(Profile(cmp, t, p, q, sort));
    assert g in prof;
    SubtreeGramsBelow(cmp, f, t, p, q, Repeat(Filler, p), g);
  }

  /** Every gram of a profile built with `p, q >= 1` has `p` ancestors and `q` siblings. */
  lemma ProfileGramShape<L>(cmp: (L, L) -> Ordering, t: Tree<L>, p: nat, q: nat, sort: bool, g: PQGram<L>)
    requires p >= 1 && q >= 1
    requires g in Profile(cmp, t, p, q, sort)
    ensures |g.ancestors| == p && |g.siblings| == q
  {
    var prof := SubtreeGrams(t, p, q, Repeat(Filler, p));
    assert g in multiset(Profile(cmp, t, p, q, sort));
    assert g in prof;
    SubtreeGramWindows(t, p, q, Repeat(Filler, p), g);
  }

  /** A single-node tree has one gram: `p - 1` fillers and its label as ancestors,
      only fillers as siblings; with `q = 0` its siblings are empty. */
  lemma LeafProfile<L>(cmp: (L, L) -> Ordering, tag: L, p: nat, q: nat, sort: bool)
    requires p >= 1
    ensures Profile(cmp, New(tag), p, q, sort) == [PQGram(Repeat(Filler, p - 1) + [Label(tag)], Repeat(Filler, q))]
  {
    assert Repeat<Node<L>>(Filler, p)[1..] == Repeat(Filler, p - 1);
  }

  /** With `sort`, the profile is in the derived gram order and holds the same
      grams, as many times each, as the unsorted profile. */
  lemma SortedProfile<L(!new)>(cmp: (L, L) -> Ordering, t: Tree<L>, p: nat, q: nat)
    requires IsTotalOrder(cmp) && q >= 1
    ensures SortedBy(GramOrder(cmp), Profile(cmp, t, p, q, true))
    ensures multiset(Profile(cmp, t, p, q, true)) == multiset(Profile(cmp, t, p, q, false))
  {
    GramTotalOrder(cmp);
    SortSorted(GramOrder(cmp), SubtreeGrams(t, p, q, Repeat(Filler, p)));
  }
}
