# pq-gram tree distance, modelled in Dafny

This project models the `pqgrams` crate, an implementation of the pq-gram
approximation of tree edit distance of Augsten, Böhlen and Gamper. The crate
has three parts, and each has a module here:

- `BoundedDeque` (src/bdeque.rs) is `BDeque<T>`, a first-in first-out window
  of capacity `maxlen` that evicts its front element when a push finds it full.
  It is a class whose `state: seq<T>` the methods reassign. Beside it are value
  functions (`Pushed`, `PushedAll`, `Repeat`, `Last`) that describe the
  contents after a sequence of pushes.
- `Grams`, `Profiles` and `Matching` (src/pqgrams.rs) hold three things:
  - the gram node `Node = Filler | Label(L)` and the gram
    `PQGram(ancestors, siblings)`, with the orders Rust derives for them;
  - the profile builder `_profile_subtree` / `pqgram_profile`, as a recursive
    specification function (`SubtreeGrams`) and as imperative methods over
    `BDeque` objects proved to emit exactly those grams;
  - flattening, the default gram comparison, the merge-join intersection and
    the distance `1 - 2·I/(|L|+|R|)`.
- `DefaultTree` (src/default_tree.rs) is the crate's labelled ordered tree,
  its `LabelledTree` view and its builder `add_node`.
- `Order` supplies what the crate takes from `std::cmp`. That is `Ordering`,
  the lexicographic order on vectors, the `Ord` bound as a total-order
  predicate on a comparison function, and `Vec::sort`.
- `Fixtures` restates the crate's unit tests in src/lib.rs as proved
  lemmas and a method: the sorted profile of `a(a(e,b),b,c)`, and the
  distances 0 and 4/13 (0.31 after rounding) for sorted and unsorted profiles.

Labels are a type parameter `L` with a comparison `cmp: (L, L) -> Ordering`.
`IsTotalOrder(cmp)` is assumed wherever the crate relies on `Ord`.
`L::default()` is passed in as `defaultLabel`. Distances are Dafny `real`s. An
`f64` result is `Finite(v)` or `NaN`, and `NaN` is what `0.0 / 0.0` gives when
both profiles are empty.

The two orders on grams are kept apart:
- `GramCmp` is the derived `Ord` of `PQGram` that `sort` uses, with `Filler`
  below every label.
- `GramEditDistance` compares the flat vectors `concat(filler)`.

`DefaultOrderAgrees` proves that the two agree when the filler value is below
every label. `FillerCollision` shows two different grams that the default
comparison reports as equal when the filler value is also a label.

Where the crate's description and its code differ, the model follows the
code. The doc comment of `BDeque` (src/bdeque.rs:3) says it behaves like
Python's deque with a specified maxlen, and Python's `deque(maxlen=0)` stays
empty. In the code,
`push_back` on an empty deque with `maxlen == 0` pops nothing and then pushes,
so the window grows by one on every push (`Pushed`, `PushedLength`). The same
holds for an ancestor window with `p == 0`.

## Model

| member | source | states |
|---|---|---|
| BoundedDeque.BDeque.constructor | src/bdeque.rs:11-14 | `new(maxlen)` is an empty deque of capacity `maxlen` |
| BoundedDeque.BDeque.PushBack | src/bdeque.rs:16-24 | if the deque was shorter than `maxlen`, the item goes at the back and `None` is returned; if it was full, the front is returned and the contents are `old[1..] + [item]`; `len <= maxlen` is preserved |
| BoundedDeque.BDeque.FillWith | src/bdeque.rs:26-31 | the contents are those of `maxlen` pushes of the item; from a valid deque of positive capacity that is exactly `maxlen` copies; capacity 0 changes nothing |
| BoundedDeque.BDeque.CopyState | src/bdeque.rs:33-39 | returns the contents oldest first as a value, and changes nothing |
| BoundedDeque.BDeque.Clone | src/bdeque.rs:4-8 | the derived `clone` is a fresh deque with the same capacity and contents, so later pushes on either deque do not reach the other |
| BoundedDeque.PushedAllWindow | src/bdeque.rs:16-24 | from a start within a positive capacity, after any pushes the deque holds the last `min(maxlen, total)` of the start followed by the pushed items |
| BoundedDeque.PushedSinceNew | src/bdeque.rs:11-24 | from `new`, the deque holds the last `min(maxlen, n)` of the `n` items pushed |
| BoundedDeque.FilledWindow | src/bdeque.rs:26-31 | `maxlen` pushes of `x` onto a deque within its positive capacity leave exactly `maxlen` copies of `x` |
| BoundedDeque.PushedLength | src/bdeque.rs:16-24 | a push keeps a deque of positive capacity within it; a capacity-0 deque grows by one on every push |
| BoundedDeque.PushedAllMembers | src/bdeque.rs:16-24 | a deque only holds elements it started with or was given |
| BoundedDeque.Scenario | src/bdeque.rs:46-60 | the unit test: contents `[]`, `[1]`, `[1,2]`, `[1,2,3]`, `[2,3,4]` after the pushes, the fourth push returns `Some(1)`, and `fill_with(0)` leaves `[0,0,0]` |
| DefaultTree.New | src/default_tree.rs:30-32 | `Tree::new(label)` has that label and no children |
| DefaultTree.NewStr | src/default_tree.rs:48-50 | `new_str(s)` is a childless tree labelled `s` |
| DefaultTree.AddNode | src/default_tree.rs:39-42 | `add_node` appends the child last and keeps the label and earlier children |
| DefaultTree.LabelOf | src/default_tree.rs:21-23 | `label()` is always `Label(tree.label)`, never `Filler` |
| DefaultTree.ChildrenOf | src/default_tree.rs:24-26 | `children()` has the same count and order as the stored children |
| DefaultTree.BuildTree | src/default_tree.rs:30-42 | `new(l)` followed by `add_node` of each of `cs` builds the tree whose children are exactly `cs` |
| Grams.NodeTotalOrder | src/pqgrams.rs:17-21 | the derived order on `Node` (`Filler` first, then labels by their order) is a total order |
| Grams.GramTotalOrder | src/pqgrams.rs:24-28 | the derived order on `PQGram` (ancestors lexicographically, then siblings) is a total order |
| Grams.Concatenated | src/pqgrams.rs:39-48 | the flat vector has length `len(ancestors) + len(siblings)`; position k holds `v` where the k-th node of ancestors-then-siblings is `Label(v)`, and the filler value where it is `Filler` |
| Grams.Concat | src/pqgrams.rs:39-48 | the loop of `concat` builds exactly that flat vector |
| Grams.ResolvedCmp | src/pqgrams.rs:39-48 | when the filler value is below every label present, replacing fillers by it does not change how two node sequences compare |
| Grams.GramCmpAsChain | src/pqgrams.rs:24-28 | for ancestor windows of one length, the derived gram order is the lexicographic order of ancestors-then-siblings |
| Order.LexTotalOrder | src/pqgrams.rs:24-28 | the lexicographic order Rust derives for vectors is a total order when the element order is |
| Order.LexCmpFirstDifference | src/pqgrams.rs:24-28 | after a common prefix, the first differing elements decide the lexicographic comparison |
| Order.SortSorted | src/pqgrams.rs:89 | `sort` returns an ascending permutation of its input |
| Order.SortedUnique | src/pqgrams.rs:89 | under a total order, a sequence has only one ascending permutation, so the sort algorithm chosen does not change the result |
| Profiles.ProfileSubtree | src/pqgrams.rs:57-80 | `_profile_subtree` pushes the node's label onto the ancestor window and returns exactly the grams `SubtreeGrams` specifies: one per child followed by that child's subtree (visited on a clone of the window), then `q - 1` closing grams; a leaf gives one gram |
| Profiles.EmitInner | src/pqgrams.rs:66-78 | the `else` branch for a node with children emits the grams of the children loop followed by the `q - 1` closing grams |
| Profiles.EmitChildren | src/pqgrams.rs:67-73 | the loop over the children leaves the sibling window at its state after all children and emits each child's gram before that child's subtree grams |
| Profiles.EmitTail | src/pqgrams.rs:74-77 | the closing loop emits `q - 1` grams, each after one more filler push |
| Profiles.PqgramProfile | src/pqgrams.rs:83-91 | `pqgram_profile` fills an ancestor window of size `p` with fillers, traverses from the root and sorts when asked; the result is `Profile` |
| Profiles.ProfileSize | src/pqgrams.rs:64-78 | sorted or not, a profile has `GramCount` grams: 1 per leaf and `k + (q - 1)` per node with `k >= 1` children |
| Profiles.SubtreeGramsCount | src/pqgrams.rs:57-80 | the traversal of a subtree emits `GramCount` grams, whatever the ancestor window |
| Profiles.SiblingWindowContents | src/pqgrams.rs:61-73 | after the i-th child's label is pushed, the sibling window is the last q of `Filler^q ++ [c1..ci]` |
| Profiles.TailWindowContents | src/pqgrams.rs:74-77 | after the t-th closing filler, the sibling window is the last q of `Filler^q ++ [c1..ck] ++ Filler^t` |
| Profiles.SubtreeGramWindows | src/pqgrams.rs:57-80 | every gram of the traversal is emitted by the visit of some node (`NodeGrams` of its path), and its ancestors are the last p of the window before the subtree followed by the labels on the path down to THAT node, that node included; every ancestors vector has length p and every siblings vector length q |
| Profiles.SubtreeGramsAreVisits | src/pqgrams.rs:57-80 | a gram is in the traversal of a subtree exactly when it is emitted by the visit of one of its nodes: the visit's own leaf gram, child grams or closing grams |
| Profiles.NodeGramsWindows | src/pqgrams.rs:60-77 | every gram emitted while visiting node n has as ancestors the last p of the window before the subtree followed by the labels on the path down to n, n included; the window is cloned per child, so a sibling's pushes never appear, and every siblings vector has length q |
| Profiles.VisitGramsWindows | src/pqgrams.rs:60-77 | every gram of one node's own visit carries the ancestor window holding that node's label, and q siblings |
| Profiles.ProfileGramShape | src/pqgrams.rs:83-91 | every gram of a profile built with `p, q >= 1` has p ancestors and q siblings |
| Profiles.ProfileLabelsBelow | src/pqgrams.rs:57-91 | if every label of the tree is above the filler value, so is every label of every gram of its profile |
| Profiles.LeafProfile | src/pqgrams.rs:64-66 | a single-node tree has one gram: `p - 1` fillers and the label as ancestors, q fillers as siblings; this includes `q = 0`, which gives empty siblings |
| Profiles.SortedProfile | src/pqgrams.rs:89 | with `sort` the profile is ascending in the derived gram order and is a permutation of the unsorted profile |
| Matching.FlattenProfile | src/pqgrams.rs:96-100 | `flatten_profile` keeps the profile's length and order and flattens each gram with `concat` |
| Matching.ZipCompare | src/pqgrams.rs:137-148 | the pairwise comparison over the zipped length returns `(1, Equal)` exactly when every pair is equal, and otherwise `(0, o)` with `o` not `Equal` |
| Matching.ZipCompareFirstDifference | src/pqgrams.rs:142-147 | the first differing pair gives the returned ordering |
| Matching.ZipCompareFlip | src/pqgrams.rs:137-148 | swapping the two grams keeps the score and reverses the ordering |
| Matching.DefaultGramEditDistance | src/pqgrams.rs:134-149 | `default_gram_edit_distance` returns the comparison of the two flat vectors, and its score is 1 exactly when the ordering is `Equal` |
| Matching.DefaultOrderAgrees | src/pqgrams.rs:134-156 | when the filler value is below every label and the grams have one shape, the default comparison orders grams as the derived order does and scores 1 exactly for equal grams |
| Matching.FillerCollision | src/pqgrams.rs:153-156 | with a filler value `f` that is also a label, the gram `([f], [*])` of the profile of `f` and the gram `([f], [f])` of the profile of `f(f)` (p = q = 1) are different and ordered apart by the derived order, yet the default comparison scores them as a match |
| Matching.MergeJoinSteps | src/pqgrams.rs:111-127 | the merge-join makes at most `len(left) + len(right)` comparisons, and none exactly when one profile is empty |
| Matching.ProfileIntersection | src/pqgrams.rs:104-128 | the loop sums the score of every comparison. `Equal` advances both cursors, `Less` the left one, `Greater` the right one. The sum is `MergeJoin` and the loop makes `MergeJoinSteps` comparisons |
| Matching.VecMatches | src/pqgrams.rs:111-127 | the match count of the merge-join with the default comparison is at most the length of each side |
| Matching.DefaultIntersection | src/pqgrams.rs:104-149 | with the default comparison, the intersection is the whole number of merge-join matches, between 0 and `min(len(left), len(right))` |
| Matching.VecMatchesSelf | src/pqgrams.rs:104-149 | a profile merged with itself matches every gram |
| Matching.VecMatchesSymmetric | src/pqgrams.rs:104-149 | the number of matches does not depend on which profile is on the left |
| Matching.VecMatchesMultiset | src/pqgrams.rs:102-128 | on sorted vectors of one length, the merge-join counts the size of the multiset intersection |
| Matching.SortedIntersection | src/pqgrams.rs:102-149 | on sorted profiles of one shape whose labels are above the filler value, the default intersection is the size of the multiset intersection of the flattened profiles |
| Matching.SortedDistance | src/pqgrams.rs:157-171 | the distance of those profiles is `1 - 2·size(L ∩ R) / (len(L) + len(R))` |
| Matching.TreeIntersection | src/pqgrams.rs:83-149 | for the sorted profiles (`p, q >= 1`) of two trees whose labels are above the filler value, neither profile is empty and the intersection is the multiset intersection of the flattened profiles |
| Matching.DistanceBounds | src/pqgrams.rs:160-162 | an intersection between 0 and half the union gives a distance in [0, 1], and exactly half the union gives 0 |
| Matching.PqgramDistanceWithFn | src/pqgrams.rs:157-163 | `pqgram_distance_with_fn` is `1 - 2·I/(len(left) + len(right))` with I the intersection, and NaN when both profiles are empty |
| Matching.PqgramDistance | src/pqgrams.rs:167-171 | `pqgram_distance` is the formula on the default match count; it is NaN exactly when both profiles are empty and otherwise lies in [0, 1] |
| Matching.DefaultDistanceValue | src/pqgrams.rs:157-171 | the default distance is the formula on the number of matches, and lies in [0, 1] |
| Matching.DistanceToSelf | src/pqgrams.rs:157-171 | a non-empty profile is at distance 0 from itself under the default comparison |
| Matching.DistanceSymmetric | src/pqgrams.rs:157-171 | the default distance does not depend on the order of the two profiles |
| Fixtures.KnownTreeGrams | src/lib.rs:18-25 | the traversal-order profile (p = 2, q = 3) of the test tree `a(a(e,b),b,z)` is the 13 grams listed |
| Fixtures.SortedKnownProfile | src/lib.rs:54-58 | the sorted profile of the test tree is the ascending permutation of those grams |
| Fixtures.KnownProfile | src/lib.rs:27-58 | the sorted profile of `a(a(e,b),b,c)`, flattened with `"*"`, is the 13 vectors the test lists |
| Fixtures.UnsortedKnownMatches | src/lib.rs:60-72 | the unsorted profiles of the two test trees have 13 grams each and 9 matches |
| Fixtures.SortedKnownMatches | src/lib.rs:74-86 | the sorted profiles of the two test trees have 13 grams each and 9 matches |
| Fixtures.KnownDistances | src/lib.rs:60-86 | the distances of the tests are 0 for a tree and its copy and 4/13 for the two test trees, sorted or not |
| Fixtures.RoundedValues | src/lib.rs:14-16 | rounded to two decimals, 0 stays 0 and 4/13 is 0.31 |
| Fixtures.DistanceTest | src/lib.rs:60-86 | the two distance tests: `dist12` is 0 and `dist13` is 4/13, which round to 0.00 and 0.31 |

## Left out

- `f64` arithmetic is modelled over `real`. Rounding error in the distance is
  not modelled. `f64_round_2dp` (src/lib.rs:14-16) appears only as `Round2` in
  the fixtures.
- The `ValidGramElement` bound and its `Debug`/`Clone`/`Default` parts are not
  modelled, nor are the marker impls in src/default_tree.rs. They become a type
  parameter `L`, a comparison `cmp` assumed total where needed, and an explicit
  `defaultLabel` for `L::default()`.
- The `LabelledTree` trait is not a Dafny trait. The builder walks
  `DefaultTree.Tree`, the crate's only implementation, through `LabelOf` and
  `ChildrenOf`.
- `Box<dyn Fn>` dispatch is modelled as a plain function value.
- The `Box<Vec<..>>` indirection and `with_capacity` size hints are left out,
  because they do not change any value.
- The `partial_cmp(...).expect(...)` panic in `default_gram_edit_distance` is
  left out. For an `Ord` label type `partial_cmp` always returns `Some`.
- `q = 0` is modelled only for a tree without children. There the source
  never reaches `0..q-1` (src/pqgrams.rs:74), because that loop sits in the
  `else` branch taken at nodes with children (src/pqgrams.rs:66). Such a tree
  gives one gram with empty siblings (`LeafProfile`). At a node with children,
  `q - 1` underflows `usize`, so `SubtreeGrams`, `ProfileSubtree` and
  `PqgramProfile` require `q >= 1` whenever the tree has children. `p = 0` is
  allowed and behaves as the code does: the ancestor window grows.
- Profiles.PqgramProfile: `prof.sort()` sorts in place; the model replaces the
  vector by `Sort` of it, an insertion sort. A sorted permutation is unique
  under a total order (`SortedUnique`), so the value is the same.
- Intersection on unsorted profiles is not characterised beyond its definition
  (`MergeJoin`, `VecMatches`) and the crate's own unsorted test. The merge-join
  makes no promise for unsorted input.
- The re-exports of src/lib.rs:1-5 are module wiring and are not modelled.
- `PQGram::new` (src/pqgrams.rs:32-34) is the datatype constructor `PQGram`.
