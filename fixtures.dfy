/**
  The unit tests of the crate (src/lib.rs), stated as lemmas about the model and
  proved: the sorted profile of the first test tree, and the distances between
  the test trees for sorted and for unsorted profiles. Labels are strings,
  ordered as Rust orders `String`.
 */
module Fixtures {
  import opened Order
  import opened Grams
  import opened DefaultTree
  import opened BoundedDeque
  import opened Profiles
  import opened Matching
  import opened Wrappers

  /** The order of `char`: by code point. */
  function CharCmp(a: char, b: char): Ordering {
    if a < b then Less else if a == b then Equal else Greater
  }

  /** The order of `String`: lexicographic over its characters. */
  function StrCmp(a: string, b: string): Ordering {
    LexCmp(CharCmp, a, b)
  }

  /** The trees of the crate's tests: `a(a(e, b), b, z)`, built with `add_node`. */
  function KnownTree(z: string): Tree<string> {
    AddNode(AddNode(AddNode(NewStr("a"), AddNode(AddNode(NewStr("a"), NewStr("e")), NewStr("b"))), NewStr("b")), NewStr(z))
  }

  /** Filler windows of the sizes the tests use. */
  lemma Fillers<L>()
    ensures Repeat<Node<L>>(Filler, 1) == [Filler]
    ensures Repeat<Node<L>>(Filler, 2) == [Filler, Filler]
    ensures Repeat<Node<L>>(Filler, 3) == [Filler, Filler, Filler]
  {
    assert Repeat<Node<L>>(Filler, 1) == [Filler];
    assert Repeat<Node<L>>(Filler, 2) == [Filler, Filler];
  }

  /** A leaf under a full ancestor window of two emits one gram of three fillers. */
  lemma LeafGrams<L>(x: L, anc: seq<Node<L>>)
    requires |anc| == 2
    ensures SubtreeGrams(New(x), 2, 3, anc) == [PQGram([anc[1], Label(x)], [Filler, Filler, Filler])]
  {
    Fillers<L>();
    assert Pushed(2, anc, Label(x)) == [anc[1], Label(x)];
  }

  /** Pushing onto a full window of three. */
  lemma Push3<T>(s: seq<T>, x: T)
    requires |s| == 3
    ensures Pushed(3, s, x) == [s[1], s[2], x]
  {
  }

  /** The sibling and closing windows (q = 3) of a node with two children. */
  lemma TwoWindows<L>(t: Tree<L>)
    requires |t.children| == 2
    ensures var l1, l2 := Label(t.children[0].tag), Label(t.children[1].tag);
            && SiblingWindow(t, 3, 1) == [Filler, Filler, l1]
            && SiblingWindow(t, 3, 2) == [Filler, l1, l2]
            && TailWindow(t, 3, 1) == [l1, l2, Filler]
            && TailWindow(t, 3, 2) == [l2, Filler, Filler]
  {
    var l1, l2 := Label(t.children[0].tag), Label(t.children[1].tag);
    Fillers<L>();
    assert ChildLabels(t)[..0] == [];
    SiblingWindowStep(t, 3, 0);
    Push3([Filler, Filler, Filler], l1);
    SiblingWindowStep(t, 3, 1);
    Push3([Filler, Filler, l1], l2);
    assert TailWindow(t, 3, 0) == SiblingWindow(t, 3, 2);
    TailWindowStep(t, 3, 0);
    Push3([Filler, l1, l2], Filler);
    TailWindowStep(t, 3, 1);
    Push3([l1, l2, Filler], Filler);
  }

  /** The sibling and closing windows (q = 3) of a node with three children. */
  lemma ThreeWindows<L>(t: Tree<L>)
    requires |t.children| == 3
    ensures var l1, l2, l3 := Label(t.children[0].tag), Label(t.children[1].tag), Label(t.children[2].tag);
            && SiblingWindow(t, 3, 1) == [Filler, Filler, l1]
            && SiblingWindow(t, 3, 2) == [Filler, l1, l2]
            && SiblingWindow(t, 3, 3) == [l1, l2, l3]
            && TailWindow(t, 3, 1) == [l2, l3, Filler]
            && TailWindow(t, 3, 2) == [l3, Filler, Filler]
  {
    var l1, l2, l3 := Label(t.children[0].tag), Label(t.children[1].tag), Label(t.children[2].tag);
    Fillers<L>();
    assert ChildLabels(t)[..0] == [];
    SiblingWindowStep(t, 3, 0);
    Push3([Filler, Filler, Filler], l1);
    SiblingWindowStep(t, 3, 1);
    Push3([Filler, Filler, l1], l2);
    SiblingWindowStep(t, 3, 2);
    Push3([Filler, l1, l2], l3);
    assert TailWindow(t, 3, 0) == SiblingWindow(t, 3, 3);
    TailWindowStep(t, 3, 0);
    Push3([l1, l2, l3], Filler);
    TailWindowStep(t, 3, 1);
    Push3([l2, l3, Filler], Filler);
  }

  /** The nodes the test profiles hold. */
  const F: Node<string> := Filler
  const A: Node<string> := Label("a")
  const B: Node<string> := Label("b")
  const C: Node<string> := Label("c")
  const E: Node<string> := Label("e")

  /** The inner node `a(e, b)` of the test trees. */
  function Inner(): Tree<string> {
    Tree("a", [New("e"), New("b")])
  }

  /** The grams of the inner node, with the root's window `[*, a]` above it. */
  lemma InnerGramsValue()
    ensures SubtreeGrams(Inner(), 2, 3, [F, A]) == [
      PQGram([A, A], [F, F, E]), PQGram([A, E], [F, F, F]),
      PQGram([A, A], [F, E, B]), PQGram([A, B], [F, F, F]),
      PQGram([A, A], [E, B, F]), PQGram([A, A], [B, F, F])]
  {
    var t := Inner();
    var a := [A, A];
    assert SubtreeGrams(t, 2, 3, [F, A]) == ChildGrams(t, 2, 3, a, 2) + TailGrams(t, 3, a, 2) by {
      assert Pushed(2, [F, A], LabelOf(t)) == a;
    }
    TwoWindows(t);
    LeafGrams("e", a);
    LeafGrams("b", a);
    assert ChildGrams(t, 2, 3, a, 1) == [PQGram(a, [F, F, E]), PQGram([A, E], [F, F, F])];
    assert ChildGrams(t, 2, 3, a, 2) == ChildGrams(t, 2, 3, a, 1) + [PQGram(a, [F, E, B]), PQGram([A, B], [F, F, F])];
    assert TailGrams(t, 3, a, 2) == [PQGram(a, [E, B, F]), PQGram(a, [B, F, F])];
  }

  /** The profile of the test tree in traversal order (p = 2, q = 3). */
  function KnownGrams(z: string): seq<PQGram<string>> {
    var a, Z := [F, A], Label(z);
    [PQGram(a, [F, F, A])] + [
      PQGram([A, A], [F, F, E]), PQGram([A, E], [F, F, F]),
      PQGram([A, A], [F, E, B]), PQGram([A, B], [F, F, F]),
      PQGram([A, A], [E, B, F]), PQGram([A, A], [B, F, F])]
    + [PQGram(a, [F, A, B]), PQGram([A, B], [F, F, F])]
    + [PQGram(a, [A, B, Z]), PQGram([A, Z], [F, F, F])]
    + [PQGram(a, [B, Z, F]), PQGram(a, [Z, F, F])]
  }

  /** The traversal-order profile of a test tree is `KnownGrams`. */
  lemma KnownTreeGrams(z: string)
    ensures SubtreeGrams(KnownTree(z), 2, 3, [F, F]) == KnownGrams(z)
  {
    var t := KnownTree(z);
    var a := [F, A];
    assert t == Tree("a", [Inner(), New("b"), New(z)]) by {
      assert AddNode(AddNode(NewStr("a"), NewStr("e")), NewStr("b")) == Inner() by {
        assert [] + [NewStr("e")] + [NewStr("b")] == [New("e"), New("b")];
      }
      assert [] + [Inner()] + [NewStr("b")] + [NewStr(z)] == [Inner(), New("b"), New(z)];
    }
    assert SubtreeGrams(t, 2, 3, [F, F]) == ChildGrams(t, 2, 3, a, 3) + TailGrams(t, 3, a, 2) by {
      assert Pushed(2, [F, F], LabelOf(t)) == a;
    }
    ThreeWindows(t);
    InnerGramsValue();
    LeafGrams("b", a);
    LeafGrams(z, a);
    assert ChildGrams(t, 2, 3, a, 1) == [PQGram(a, [F, F, A])] + SubtreeGrams(Inner(), 2, 3, a);
    assert ChildGrams(t, 2, 3, a, 2) == ChildGrams(t, 2, 3, a, 1) + [PQGram(a, [F, A, B]), PQGram([A, B], [F, F, F])];
    assert ChildGrams(t, 2, 3, a, 3) == ChildGrams(t, 2, 3, a, 2) + [PQGram(a, [A, B, Label(z)]), PQGram([A, Label(z)], [F, F, F])];
    assert TailGrams(t, 3, a, 2) == [PQGram(a, [B, Label(z), F]), PQGram(a, [Label(z), F, F])];
  }

  /** The order of `String` is a total order. */
  lemma StrTotalOrder()
    ensures IsTotalOrder(StrCmp)
  {
    assert IsTotalOrder(CharCmp);
    LexTotalOrder(CharCmp);
    assert forall a, b :: StrCmp(a, b) == LexOrder(CharCmp)(a, b);
  }

  /** The labels the last child of a test tree may carry: above "b" and not "e". */
  ghost predicate LastLabel(z: string) {
    StrCmp("b", z) == Less && z != "e"
  }

  /** `KnownGrams(z)` in the derived gram order. */
  function KnownSorted(z: string): seq<PQGram<string>> {
    var a, Z := [F, A], Label(z);
    [PQGram(a, [F, F, A]), PQGram(a, [F, A, B]), PQGram(a, [A, B, Z]), PQGram(a, [B, Z, F]), PQGram(a, [Z, F, F]),
     PQGram([A, A], [F, F, E]), PQGram([A, A], [F, E, B]), PQGram([A, A], [B, F, F]), PQGram([A, A], [E, B, F]),
     PQGram([A, B], [F, F, F]), PQGram([A, B], [F, F, F])]
    + if StrCmp(z, "e") == Less then [PQGram([A, Z], [F, F, F]), PQGram([A, E], [F, F, F])]
      else [PQGram([A, E], [F, F, F]), PQGram([A, Z], [F, F, F])]
  }

  /** How the gram nodes of the test trees compare. */
  lemma NodeFacts(z: string)
    requires LastLabel(z)
    ensures NodeCmp(StrCmp, A, B) == Less && NodeCmp(StrCmp, B, E) == Less && NodeCmp(StrCmp, B, Label(z)) == Less
    ensures NodeCmp(StrCmp, Label(z), E) == Less || NodeCmp(StrCmp, E, Label(z)) == Less
    ensures NodeCmp(StrCmp, Label(z), E) == Less <==> StrCmp(z, "e") == Less
  {
    StrTotalOrder();
    assert StrCmp("a", "b") == Less && StrCmp("b", "e") == Less;
  }

  /** Two grams whose flat node sequences first differ at `k`, the first below the second. */
  lemma GramLessAt(g: PQGram<string>, h: PQGram<string>, k: nat)
    requires |g.ancestors| == |h.ancestors| && k < |g.ancestors + g.siblings| && k < |h.ancestors + h.siblings|
    requires (g.ancestors + g.siblings)[..k] == (h.ancestors + h.siblings)[..k]
    requires NodeCmp(StrCmp, (g.ancestors + g.siblings)[k], (h.ancestors + h.siblings)[k]) == Less
    ensures GramOrder(StrCmp)(g, h) == Less
  {
    StrTotalOrder();
    NodeTotalOrder(StrCmp);
    GramCmpAsChain(StrCmp, g, h);
    LexCmpFirstDifference(NodeOrder(StrCmp), g.ancestors + g.siblings, h.ancestors + h.siblings, k);
  }

  /** Adjacent grams of `KnownSorted` are in order, a few pairs at a time. */
  lemma SortedStepsA(z: string)
    requires LastLabel(z)
    ensures forall i :: 0 <= i < 2 ==> GramOrder(StrCmp)(KnownSorted(z)[i], KnownSorted(z)[i + 1]) != Greater
  {
    var s := KnownSorted(z);
    GramLessAt(s[0], s[1], 3);
    GramLessAt(s[1], s[2], 2);
  }

  lemma SortedStepsB(z: string)
    requires LastLabel(z)
    ensures forall i :: 2 <= i < 4 ==> GramOrder(StrCmp)(KnownSorted(z)[i], KnownSorted(z)[i + 1]) != Greater
  {
    NodeFacts(z);
    var s := KnownSorted(z);
    GramLessAt(s[2], s[3], 2);
    GramLessAt(s[3], s[4], 2);
  }

  lemma SortedStepsC(z: string)
    requires LastLabel(z)
    ensures forall i :: 4 <= i < 8 ==> GramOrder(StrCmp)(KnownSorted(z)[i], KnownSorted(z)[i + 1]) != Greater
  {
    NodeFacts(z);
    var s := KnownSorted(z);
    GramLessAt(s[4], s[5], 0);
    GramLessAt(s[5], s[6], 3);
    GramLessAt(s[6], s[7], 2);
    GramLessAt(s[7], s[8], 2);
  }

  lemma SortedStepsD(z: string)
    requires LastLabel(z)
    ensures forall i :: 8 <= i < 12 ==> GramOrder(StrCmp)(KnownSorted(z)[i], KnownSorted(z)[i + 1]) != Greater
  {
    StrTotalOrder();
    GramTotalOrder(StrCmp);
    NodeFacts(z);
    var s := KnownSorted(z);
    GramLessAt(s[8], s[9], 1);
    assert s[9] == s[10];
    GramLessAt(s[10], s[11], 1);
    GramLessAt(s[11], s[12], 1);
  }

  /** `KnownSorted` is in the derived gram order. */
  lemma KnownSortedSorted(z: string)
    requires LastLabel(z)
    ensures SortedBy(GramOrder(StrCmp), KnownSorted(z))
  {
    StrTotalOrder();
    GramTotalOrder(StrCmp);
    SortedStepsA(z);
    SortedStepsB(z);
    SortedStepsC(z);
    SortedStepsD(z);
    SortedByAdjacent(GramOrder(StrCmp), KnownSorted(z));
  }

  /** `KnownSorted` holds the grams of `KnownGrams`, each as often. */
  lemma KnownSortedPermutation(z: string)
    ensures multiset(KnownSorted(z)) == multiset(KnownGrams(z))
  {
    if StrCmp(z, "e") == Less {
      ReorderedPermutation(KnownGrams(z), KnownSorted(z), [0, 7, 9, 11, 12, 1, 3, 6, 5, 4, 8, 10, 2]);
    } else {
      ReorderedPermutation(KnownGrams(z), KnownSorted(z), [0, 7, 9, 11, 12, 1, 3, 6, 5, 4, 8, 2, 10]);
    }
  }

  /** The sorted profile of a test tree is `KnownSorted`: `Vec::sort` returns the
      one ascending permutation of the traversal-order profile. */
  lemma SortedKnownProfile(z: string)
    requires LastLabel(z)
    ensures Profile(StrCmp, KnownTree(z), 2, 3, true) == KnownSorted(z)
  {
    Fillers<string>();
    KnownTreeGrams(z);
    StrTotalOrder();
    GramTotalOrder(StrCmp);
    SortSorted(GramOrder(StrCmp), KnownGrams(z));
    KnownSortedSorted(z);
    KnownSortedPermutation(z);
    SortedUnique(GramOrder(StrCmp), Sort(GramOrder(StrCmp), KnownGrams(z)), KnownSorted(z));
  }

  /** The flat vector of a gram with two ancestors and three siblings. */
  lemma FlatFive<L>(g: PQGram<L>, f: L)
    requires |g.ancestors| == 2 && |g.siblings| == 3
    ensures Concatenated(g, f) == [Resolve(g.ancestors[0], f), Resolve(g.ancestors[1], f),
                                   Resolve(g.siblings[0], f), Resolve(g.siblings[1], f), Resolve(g.siblings[2], f)]
  {
  }

  /** Every gram of `profile` has two ancestors and three siblings. */
  ghost predicate Shape23(profile: seq<PQGram<string>>) {
    forall i :: 0 <= i < |profile| ==> |profile[i].ancestors| == 2 && |profile[i].siblings| == 3
  }

  lemma FlatAll(profile: seq<PQGram<string>>, f: string)
    requires Shape23(profile)
    ensures forall i :: 0 <= i < |profile| ==>
              FlattenProfile(profile, f)[i] == [Resolve(profile[i].ancestors[0], f), Resolve(profile[i].ancestors[1], f),
                                                Resolve(profile[i].siblings[0], f), Resolve(profile[i].siblings[1], f),
                                                Resolve(profile[i].siblings[2], f)]
  {
    forall i | 0 <= i < |profile| {
      FlatFive(profile[i], f);
    }
  }

  /** `KnownSorted("c")` flattened with "*" for fillers. */
  lemma StarFlatC()
    ensures FlattenProfile(KnownSorted("c"), "*") == [
      ["*", "a", "*", "*", "a"], ["*", "a", "*", "a", "b"], ["*", "a", "a", "b", "c"],
      ["*", "a", "b", "c", "*"], ["*", "a", "c", "*", "*"], ["a", "a", "*", "*", "e"],
      ["a", "a", "*", "e", "b"], ["a", "a", "b", "*", "*"], ["a", "a", "e", "b", "*"],
      ["a", "b", "*", "*", "*"], ["a", "b", "*", "*", "*"], ["a", "c", "*", "*", "*"],
      ["a", "e", "*", "*", "*"]]
  {
    assert StrCmp("c", "e") == Less;
    var s := KnownSorted("c");
    assert s == [PQGram([F, A], [F, F, A]), PQGram([F, A], [F, A, B]), PQGram([F, A], [A, B, C]),
                 PQGram([F, A], [B, C, F]), PQGram([F, A], [C, F, F]),
                 PQGram([A, A], [F, F, E]), PQGram([A, A], [F, E, B]), PQGram([A, A], [B, F, F]),
                 PQGram([A, A], [E, B, F]), PQGram([A, B], [F, F, F]), PQGram([A, B], [F, F, F]),
                 PQGram([A, C], [F, F, F]), PQGram([A, E], [F, F, F])];
    FlatAll(s, "*");
  }

  /** The crate's profile test: the sorted profile of `a(a(e, b), b, c)` with
      p = 2 and q = 3, flattened with "*" for fillers, is the thirteen vectors the
      test lists. */
  lemma KnownProfile()
    ensures FlattenProfile(Profile(StrCmp, KnownTree("c"), 2, 3, true), "*") == [
      ["*", "a", "*", "*", "a"], ["*", "a", "*", "a", "b"], ["*", "a", "a", "b", "c"],
      ["*", "a", "b", "c", "*"], ["*", "a", "c", "*", "*"], ["a", "a", "*", "*", "e"],
      ["a", "a", "*", "e", "b"], ["a", "a", "b", "*", "*"], ["a", "a", "e", "b", "*"],
      ["a", "b", "*", "*", "*"], ["a", "b", "*", "*", "*"], ["a", "c", "*", "*", "*"],
      ["a", "e", "*", "*", "*"]]
  {
    assert StrCmp("b", "c") == Less;
    SortedKnownProfile("c");
    StarFlatC();
  }

  /** `KnownGrams(z)` flattened with the empty string, the default label, for fillers. */
  function KnownFlat(z: string): seq<seq<string>> {
    [["", "a", "", "", "a"], ["a", "a", "", "", "e"], ["a", "e", "", "", ""], ["a", "a", "", "e", "b"],
     ["a", "b", "", "", ""], ["a", "a", "e", "b", ""], ["a", "a", "b", "", ""], ["", "a", "", "a", "b"],
     ["a", "b", "", "", ""], ["", "a", "a", "b", z], ["a", z, "", "", ""], ["", "a", "b", z, ""],
     ["", "a", z, "", ""]]
  }

  /** `KnownSorted(z)` flattened with the empty string for fillers. */
  function SortedFlat(z: string): seq<seq<string>> {
    [["", "a", "", "", "a"], ["", "a", "", "a", "b"], ["", "a", "a", "b", z], ["", "a", "b", z, ""],
     ["", "a", z, "", ""], ["a", "a", "", "", "e"], ["a", "a", "", "e", "b"], ["a", "a", "b", "", ""],
     ["a", "a", "e", "b", ""], ["a", "b", "", "", ""], ["a", "b", "", "", ""]]
    + if StrCmp(z, "e") == Less then [["a", z, "", "", ""], ["a", "e", "", "", ""]]
      else [["a", "e", "", "", ""], ["a", z, "", "", ""]]
  }

  /** Flattening `KnownGrams` gives `KnownFlat`. */
  lemma KnownFlatValue(z: string)
    ensures FlattenProfile(KnownGrams(z), "") == KnownFlat(z)
  {
    assert Shape23(KnownGrams(z));
    FlatAll(KnownGrams(z), "");
  }

  /** Flattening `KnownSorted` gives `SortedFlat`. */
  lemma SortedFlatValue(z: string)
    ensures FlattenProfile(KnownSorted(z), "") == SortedFlat(z)
  {
    var s := KnownSorted(z);
    var a, Z := [F, A], Label(z);
    var head := [PQGram(a, [F, F, A]), PQGram(a, [F, A, B]), PQGram(a, [A, B, Z]), PQGram(a, [B, Z, F]), PQGram(a, [Z, F, F]),
     PQGram([A, A], [F, F, E]), PQGram([A, A], [F, E, B]), PQGram([A, A], [B, F, F]), PQGram([A, A], [E, B, F]),
     PQGram([A, B], [F, F, F]), PQGram([A, B], [F, F, F])];
    if StrCmp(z, "e") == Less {
      assert s == head + [PQGram([A, Z], [F, F, F]), PQGram([A, E], [F, F, F])];
    } else {
      assert s == head + [PQGram([A, E], [F, F, F]), PQGram([A, Z], [F, F, F])];
    }
    assert Shape23(s);
    FlatAll(s, "");
  }

  /** Two label vectors of the same length that first differ at `k`. */
  lemma VecOrderAt(u: seq<string>, v: seq<string>, k: nat)
    requires |u| == |v| && k < |u| && u[..k] == v[..k] && StrCmp(u[k], v[k]) != Equal
    ensures ZipCompare(StrCmp, u, v).1 == StrCmp(u[k], v[k])
  {
    StrTotalOrder();
    ZipCompareLex(StrCmp, u, v);
    LexCmpFirstDifference(StrCmp, u, v, k);
  }

  /** How the labels of the tests compare. */
  lemma StrFacts()
    ensures StrCmp("c", "x") == Less && StrCmp("c", "e") == Less && StrCmp("b", "c") == Less && StrCmp("b", "x") == Less
    ensures StrCmp("a", "") == Greater && StrCmp("", "a") == Less && StrCmp("b", "a") == Greater && StrCmp("c", "b") == Greater
    ensures StrCmp("x", "e") == Greater
  {
  }

  /** The merge path of the last four vectors of the unsorted test profiles. */
  lemma UnsortedTailPath(x: seq<seq<string>>, y: seq<seq<string>>)
    requires |x| == 4 && |y| == 4
    requires ZipCompare(StrCmp, x[0], y[0]).1 == Less && ZipCompare(StrCmp, x[1], y[0]).1 == Greater
    requires ZipCompare(StrCmp, x[1], y[1]).1 == Less && ZipCompare(StrCmp, x[2], y[1]).1 == Less
    requires ZipCompare(StrCmp, x[3], y[1]).1 == Less
    ensures VecMatches(StrCmp, x, y) == 0
  {
    assert VecMatches(StrCmp, x, y) == VecMatches(StrCmp, x[1..], y);
    assert VecMatches(StrCmp, x[1..], y) == VecMatches(StrCmp, x[1..], y[1..]);
    assert VecMatches(StrCmp, x[1..], y[1..]) == VecMatches(StrCmp, x[2..], y[1..]);
    assert VecMatches(StrCmp, x[2..], y[1..]) == VecMatches(StrCmp, x[3..], y[1..]);
    assert VecMatches(StrCmp, x[3..], y[1..]) == VecMatches(StrCmp, x[4..], y[1..]);
  }

  /** The last four vectors of the two unsorted test profiles have no match. */
  lemma UnsortedTailMatches()
    ensures VecMatches(StrCmp, KnownFlat("c")[9..], KnownFlat("x")[9..]) == 0
  {
    var x := [["", "a", "a", "b", "c"], ["a", "c", "", "", ""], ["", "a", "b", "c", ""], ["", "a", "c", "", ""]];
    var y := [["", "a", "a", "b", "x"], ["a", "x", "", "", ""], ["", "a", "b", "x", ""], ["", "a", "x", "", ""]];
    assert KnownFlat("c")[9..] == x && KnownFlat("x")[9..] == y;
    StrFacts();
    VecOrderAt(x[0], y[0], 4);
    VecOrderAt(x[1], y[0], 0);
    VecOrderAt(x[1], y[1], 1);
    VecOrderAt(x[2], y[1], 0);
    VecOrderAt(x[3], y[1], 0);
    UnsortedTailPath(x, y);
  }

  /** The merge-join of the two unsorted test profiles: the first nine vectors
      agree, and none of the last four of one profile meets its counterpart. */
  lemma UnsortedMatches()
    ensures VecMatches(StrCmp, KnownFlat("c"), KnownFlat("x")) == 9
  {
    StrTotalOrder();
    assert KnownFlat("c")[..9] == KnownFlat("x")[..9];
    VecMatchesCommonPrefix(StrCmp, KnownFlat("c"), KnownFlat("x"), 9);
    UnsortedTailMatches();
  }

  /** Three vectors of each sorted profile pass each other without a match. */
  lemma InterleavedPath(x: seq<seq<string>>, y: seq<seq<string>>)
    requires |x| >= 4 && |y| >= 3
    requires ZipCompare(StrCmp, x[0], y[0]).1 == Less && ZipCompare(StrCmp, x[1], y[0]).1 == Greater
    requires ZipCompare(StrCmp, x[1], y[1]).1 == Less && ZipCompare(StrCmp, x[2], y[1]).1 == Greater
    requires ZipCompare(StrCmp, x[2], y[2]).1 == Less && ZipCompare(StrCmp, x[3], y[2]).1 == Greater
    ensures VecMatches(StrCmp, x, y) == VecMatches(StrCmp, x[3..], y[3..])
  {
    assert VecMatches(StrCmp, x, y) == VecMatches(StrCmp, x[1..], y);
    assert VecMatches(StrCmp, x[1..], y) == VecMatches(StrCmp, x[1..], y[1..]);
    assert VecMatches(StrCmp, x[1..], y[1..]) == VecMatches(StrCmp, x[2..], y[1..]);
    assert VecMatches(StrCmp, x[2..], y[1..]) == VecMatches(StrCmp, x[2..], y[2..]);
    assert VecMatches(StrCmp, x[2..], y[2..]) == VecMatches(StrCmp, x[3..], y[2..]);
    assert VecMatches(StrCmp, x[3..], y[2..]) == VecMatches(StrCmp, x[3..], y[3..]);
  }

  /** The three passing vectors of the sorted profiles give no match. */
  lemma SortedMiddleMatches(X: seq<seq<string>>, Y: seq<seq<string>>)
    requires X == SortedFlat("c") && Y == SortedFlat("x")
    ensures VecMatches(StrCmp, X[2..], Y[2..]) == VecMatches(StrCmp, X[5..], Y[5..])
  {
    var x, y := X[2..], Y[2..];
    MiddleComparisons(x, y);
    InterleavedPath(x, y);
    assert x[3..] == X[5..] && y[3..] == Y[5..];
  }

  /** How the three passing vectors of the sorted profiles compare. */
  lemma MiddleComparisons(x: seq<seq<string>>, y: seq<seq<string>>)
    requires |x| >= 4 && |y| >= 3
    requires x[0] == ["", "a", "a", "b", "c"] && x[1] == ["", "a", "b", "c", ""]
    requires x[2] == ["", "a", "c", "", ""] && x[3] == ["a", "a", "", "", "e"]
    requires y[0] == ["", "a", "a", "b", "x"] && y[1] == ["", "a", "b", "x", ""] && y[2] == ["", "a", "x", "", ""]
    ensures ZipCompare(StrCmp, x[0], y[0]).1 == Less && ZipCompare(StrCmp, x[1], y[0]).1 == Greater
    ensures ZipCompare(StrCmp, x[1], y[1]).1 == Less && ZipCompare(StrCmp, x[2], y[1]).1 == Greater
    ensures ZipCompare(StrCmp, x[2], y[2]).1 == Less && ZipCompare(StrCmp, x[3], y[2]).1 == Greater
  {
    StrFacts();
    PassingPair(x[0], x[1], y[0], 4, 2);
    PassingPair(x[1], x[2], y[1], 3, 2);
    PassingPair(x[2], x[3], y[2], 2, 0);
  }

  /** `u` sorts below `w`, which sorts above `v`: they first differ from `w` at `i` and `j`. */
  lemma PassingPair(u: seq<string>, v: seq<string>, w: seq<string>, i: nat, j: nat)
    requires |u| == |w| && |v| == |w| && i < |w| && j < |w|
    requires u[..i] == w[..i] && StrCmp(u[i], w[i]) == Less
    requires v[..j] == w[..j] && StrCmp(v[j], w[j]) == Greater
    ensures ZipCompare(StrCmp, u, w).1 == Less && ZipCompare(StrCmp, v, w).1 == Greater
  {
    VecOrderAt(u, w, i);
    VecOrderAt(v, w, j);
  }

  /** The last two vectors of the sorted profiles: one passes, one matches. */
  lemma FinalPairPath(x: seq<seq<string>>, y: seq<seq<string>>)
    requires |x| == 2 && |y| == 2
    requires ZipCompare(StrCmp, x[0], y[0]).1 == Less && ZipCompare(StrCmp, x[1], y[0]).1 == Equal
    ensures VecMatches(StrCmp, x, y) == 1
  {
    assert VecMatches(StrCmp, x, y) == VecMatches(StrCmp, x[1..], y);
    assert VecMatches(StrCmp, x[1..], y) == 1 + VecMatches(StrCmp, x[2..], y[1..]);
  }

  /** The last two vectors of the sorted profiles give one match. */
  lemma SortedFinalMatches(X: seq<seq<string>>, Y: seq<seq<string>>)
    requires X == SortedFlat("c") && Y == SortedFlat("x")
    ensures VecMatches(StrCmp, X[11..], Y[11..]) == 1
  {
    StrTotalOrder();
    StrFacts();
    var x, y := X[11..], Y[11..];
    assert |x| == 2 && |y| == 2;
    assert x[0] == ["a", "c", "", "", ""] && x[1] == ["a", "e", "", "", ""] && y[0] == ["a", "e", "", "", ""];
    VecOrderAt(x[0], y[0], 1);
    assert forall k :: 0 <= k < |x[1]| ==> StrCmp(x[1][k], y[0][k]) == Equal;
    FinalPairPath(x, y);
  }

  /** Where the two sorted test profiles agree. */
  lemma SortedAgree(X: seq<seq<string>>, Y: seq<seq<string>>)
    requires X == SortedFlat("c") && Y == SortedFlat("x")
    ensures |X| == 13 && |Y| == 13
    ensures X[..2] == Y[..2] && X[5..][..6] == Y[5..][..6]
  {
    assert forall i :: 0 <= i < 2 ==> X[i] == Y[i];
    assert forall i :: 5 <= i < 11 ==> X[i] == Y[i];
  }

  /** The merge-join of the two sorted test profiles: it matches the first two
      vectors, passes three of each, matches the next six and then one more. */
  lemma SortedMatches(X: seq<seq<string>>, Y: seq<seq<string>>)
    requires X == SortedFlat("c") && Y == SortedFlat("x")
    ensures VecMatches(StrCmp, X, Y) == 9
  {
    StrTotalOrder();
    SortedAgree(X, Y);
    VecMatchesCommonPrefix(StrCmp, X, Y, 2);
    SortedMiddleMatches(X, Y);
    VecMatchesCommonPrefix(StrCmp, X[5..], Y[5..], 6);
    assert X[5..][6..] == X[11..] && Y[5..][6..] == Y[11..];
    SortedFinalMatches(X, Y);
  }

  /** The unsorted profiles of the two test trees with p = 2 and q = 3:
      thirteen grams each, of which nine match. */
  lemma UnsortedKnownMatches(t1: Tree<string>, t3: Tree<string>)
    requires t1 == KnownTree("c") && t3 == KnownTree("x")
    ensures var P1, P3 := Profile(StrCmp, t1, 2, 3, false), Profile(StrCmp, t3, 2, 3, false);
            |P1| == 13 && |P3| == 13 && VecMatches(StrCmp, FlattenProfile(P1, ""), FlattenProfile(P3, "")) == 9
  {
    Fillers<string>();
    KnownTreeGrams("c");
    KnownTreeGrams("x");
    KnownFlatValue("c");
    KnownFlatValue("x");
    UnsortedMatches();
  }

  /** The flattened sorted profile of a test tree. */
  lemma SortedProfileFlat(t: Tree<string>, z: string)
    requires t == KnownTree(z) && LastLabel(z)
    ensures |Profile(StrCmp, t, 2, 3, true)| == 13
    ensures FlattenProfile(Profile(StrCmp, t, 2, 3, true), "") == SortedFlat(z)
  {
    SortedKnownProfile(z);
    SortedFlatValue(z);
  }

  /** The sorted profiles of the two test trees: nine matches as well. */
  lemma SortedKnownMatches(t1: Tree<string>, t3: Tree<string>)
    requires t1 == KnownTree("c") && t3 == KnownTree("x")
    ensures var P1, P3 := Profile(StrCmp, t1, 2, 3, true), Profile(StrCmp, t3, 2, 3, true);
            |P1| == 13 && |P3| == 13 && VecMatches(StrCmp, FlattenProfile(P1, ""), FlattenProfile(P3, "")) == 9
  {
    StrFacts();
    SortedProfileFlat(t1, "c");
    SortedProfileFlat(t3, "x");
    SortedMatches(FlattenProfile(Profile(StrCmp, t1, 2, 3, true), ""), FlattenProfile(Profile(StrCmp, t3, 2, 3, true), ""));
  }

  /** The distance formula on the counts of the tests. */
  lemma FormulaValues()
    ensures DistanceFormula(13 as real, 26) == Finite(0.0)
    ensures DistanceFormula(9 as real, 26) == Finite(4.0 / 13.0)
  {
  }

  /** The two test profiles have thirteen grams each, and nine matches between
      them, whether sorted or not; each matches itself thirteen times. */
  lemma KnownCounts(sort: bool, t1: Tree<string>, t3: Tree<string>, prof1: seq<PQGram<string>>, prof3: seq<PQGram<string>>)
    requires t1 == KnownTree("c") && t3 == KnownTree("x")
    requires prof1 == Profile(StrCmp, t1, 2, 3, sort) && prof3 == Profile(StrCmp, t3, 2, 3, sort)
    ensures |prof1| == 13 && |prof3| == 13
    ensures VecMatches(StrCmp, FlattenProfile(prof1, ""), FlattenProfile(prof3, "")) == 9
    ensures VecMatches(StrCmp, FlattenProfile(prof1, ""), FlattenProfile(prof1, "")) == 13
  {
    if sort {
      SortedKnownMatches(t1, t3);
    } else {
      UnsortedKnownMatches(t1, t3);
    }
    StrTotalOrder();
    VecMatchesSelf(StrCmp, FlattenProfile(prof1, ""));
  }

  /** The two distances of the tests, as the distance formula computes them. */
  lemma KnownDistances(sort: bool, prof1: seq<PQGram<string>>, prof2: seq<PQGram<string>>, prof3: seq<PQGram<string>>)
    requires prof1 == Profile(StrCmp, KnownTree("c"), 2, 3, sort) && prof2 == prof1
    requires prof3 == Profile(StrCmp, KnownTree("x"), 2, 3, sort)
    ensures var f := FillerValue(None, "");
            && DistanceFormula(VecMatches(StrCmp, FlattenProfile(prof1, f), FlattenProfile(prof2, f)) as real,
                               |prof1| + |prof2|) == Finite(0.0)
            && DistanceFormula(VecMatches(StrCmp, FlattenProfile(prof1, f), FlattenProfile(prof3, f)) as real,
                               |prof1| + |prof3|) == Finite(4.0 / 13.0)
  {
    var f := FillerValue(None, "");
    assert f == "";
    KnownCounts(sort, KnownTree("c"), KnownTree("x"), prof1, prof3);
    var self, cross := VecMatches(StrCmp, FlattenProfile(prof1, f), FlattenProfile(prof2, f)),
                       VecMatches(StrCmp, FlattenProfile(prof1, f), FlattenProfile(prof3, f));
    assert self == 13 && cross == 9;
    FormulaValues();
  }

  /** `f64_round_2dp` of the tests: rounding to two decimals, halves away from zero. */
  function Round2(x: real): real {
    if x >= 0.0 then ((x * 100.0 + 0.5).Floor as real) / 100.0
    else -(((-x * 100.0 + 0.5).Floor as real) / 100.0)
  }

  lemma RoundedValues()
    ensures Round2(0.0) == 0.0 && Round2(4.0 / 13.0) == 0.31
  {
    assert (4.0 / 13.0 * 100.0 + 0.5).Floor == 31;
  }

  /** The crate's two distance tests, on unsorted and on sorted profiles: a tree
      is at distance 0 from its copy, and relabelling its last child gives
      1 - 2 * 9 / 26 = 4/13, which rounds to 0.31. */
  method DistanceTest(sort: bool) returns (dist12: Float, dist13: Float)
    ensures dist12 == Finite(0.0) && dist13 == Finite(4.0 / 13.0)
    ensures Round2(dist12.value) == 0.0 && Round2(dist13.value) == 0.31
  {
    var tree1 := KnownTree("c");
    var tree2 := tree1;
    var tree3 := KnownTree("x");
    var prof1 := PqgramProfile(StrCmp, tree1, 2, 3, sort);
    var prof2 := PqgramProfile(StrCmp, tree2, 2, 3, sort);
    var prof3 := PqgramProfile(StrCmp, tree3, 2, 3, sort);
    dist12 := PqgramDistance(StrCmp, prof1, prof2, None, "");
    dist13 := PqgramDistance(StrCmp, prof1, prof3, None, "");
    KnownDistances(sort, prof1, prof2, prof3);
    RoundedValues();
  }
}
