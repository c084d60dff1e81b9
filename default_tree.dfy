/**
  The crate's own labelled ordered tree (src/default_tree.rs), the implementation
  of `LabelledTree` the profile builder walks: a label and an ordered sequence of
  children. `add_node` consumes the tree and returns it with one more child, so a
  function on values models it exactly.
 */
module DefaultTree {
  import opened Grams

  datatype Tree<L> = Tree(tag: L, children: seq<Tree<L>>)

  /** `Tree::new`: a tree with the given label and no children. */
  function New<L>(tag: L): (t: Tree<L>)
    ensures t.tag == tag && t.children == []
  {
    Tree(tag, [])
  }

  /** `Tree::new_str`: a childless tree labelled with the string. */
  function NewStr(tag: string): (t: Tree<string>)
    ensures t.tag == tag && t.children == []
  {
    New(tag)
  }

  /** `add_node`: the child goes last; the label and the earlier children stay. */
  function AddNode<L>(t: Tree<L>, child: Tree<L>): (r: Tree<L>)
    ensures r.tag == t.tag
    ensures |r.children| == |t.children| + 1
    ensures r.children[..|t.children|] == t.children && r.children[|t.children|] == child
  {
    Tree(t.tag, t.children + [child])
  }

  /** `LabelledTree::label`: a real label, never `Filler`. */
  function LabelOf<L>(t: Tree<L>): (n: Node<L>)
    ensures n.Label? && n.value == t.tag
  {
    Label(t.tag)
  }

  /** `LabelledTree::children`: the stored children, in stored order. */
  function ChildrenOf<L>(t: Tree<L>): (cs: seq<Tree<L>>)
    ensures |cs| == |t.children|
    ensures forall i :: 0 <= i < |cs| ==> cs[i] == t.children[i]
  {
    t.children
  }

  /** Adding the trees of `cs` one after another with `add_node`. */
  function AddNodes<L>(t: Tree<L>, cs: seq<Tree<L>>): Tree<L>
    decreases |cs|
  {
    if cs == [] then t else AddNode(AddNodes(t, cs[..|cs| - 1]), cs[|cs| - 1])
  }

  /** The builder pattern of the crate's tests: starting from `new(label)` and
      adding `cs` in order gives the tree whose children are exactly `cs`. */
  lemma {:induction false} BuildTree<L>(tag: L, cs: seq<Tree<L>>)
    ensures AddNodes(New(tag), cs) == Tree(tag, cs)
    decreases |cs|
  {
    if cs != [] {
      BuildTree(tag, cs[..|cs| - 1]);
      assert cs[..|cs| - 1] + [cs[|cs| - 1]] == cs;
    }
  }
}
