/**
 * src/utils/node.ts: `searchForEnclosingNode`, the search for the node whose
 * fill serves as the background behind the selected node `ref`.
 */
module EnclosingNode {
  import opened Wrappers
  import opened Figma

  /** `child`'s absolute rectangle contains `ref`'s (edges may touch). */
  predicate Encloses(child: SceneNode, ref: SceneNode) {
    && child.absoluteX <= ref.absoluteX
    && child.absoluteY <= ref.absoluteY
    && child.absoluteX + child.width >= ref.absoluteX + ref.width
    && child.absoluteY + child.height >= ref.absoluteY + ref.height
  }

  /** A child the loop stops at: not `ref` itself (by id), and enclosing it. */
  predicate Candidate(child: SceneNode, ref: SceneNode) {
    child.id != ref.id && Encloses(child, ref)
  }

  /** `node.children?.find((node) => node.id === ref.id)` finds something. */
  predicate HasChildWithId(n: SceneNode, id: string) {
    exists i :: 0 <= i < |n.children| && n.children[i].id == id
  }

  /** `searchForEnclosingNode(node, ref)`: a missing node or reference gives `undefined`. */
  function SearchForEnclosingNode(node: Option<SceneNode>, ref: Option<SceneNode>): (r: Option<SceneNode>)
    ensures node.None? || ref.None? ==> r.None?
    ensures node.Some? && ref.Some? ==> r == Search(node.value, ref.value)
  {
    if node.None? || ref.None? then None else Search(node.value, ref.value)
  }

  /**
   * The search below a present node: nodes without `children` give nothing; a
   * frame that directly holds `ref` is the answer; instances are skipped;
   * anything else scans its children.
   */
  function Search(n: SceneNode, ref: SceneNode): (r: Option<SceneNode>)
    ensures !HasChildrenProperty(n.nodeType) ==> r.None?
    ensures n.nodeType == INSTANCE ==> r.None?
    ensures n.nodeType == FRAME && HasChildWithId(n, ref.id) ==> r == Some(n)
    decreases n, |n.children| + 1
  {
    if !HasChildrenProperty(n.nodeType) then None
    else if n.nodeType == FRAME && HasChildWithId(n, ref.id) then Some(n)
    else if n.nodeType != INSTANCE then SearchChildren(n, 0, ref)
    else None
  }

  /**
   * The `for` loop from child `i` on. The first candidate ends the search: a
   * frame or group is searched into, any other node is the answer. The
   * recursive call made for a non-candidate child has its result dropped, so it
   * is the same as moving on.
   */
  function SearchChildren(n: SceneNode, i: nat, ref: SceneNode): Option<SceneNode>
    requires i <= |n.children|
    decreases n, |n.children| - i
  {
    if i == |n.children| then None
    else
      var child := n.children[i];
      if Candidate(child, ref) then Stop(child, ref) else SearchChildren(n, i + 1, ref)
  }

  /** What the loop returns once it stops at a candidate. */
  function Stop(child: SceneNode, ref: SceneNode): Option<SceneNode>
    decreases child, |child.children| + 2
  {
    if child.nodeType == FRAME || child.nodeType == GROUP then Search(child, ref) else Some(child)
  }

  /** `d` is `n` or lies somewhere below it. */
  predicate DescendantOrSelf(n: SceneNode, d: SceneNode) {
    n == d || exists i :: 0 <= i < |n.children| && DescendantOrSelf(n.children[i], d)
  }

  /**
   * Whatever the search returns lies in the searched tree and is either a frame
   * holding `ref` directly, or a node other than a frame or group that is not
   * `ref` and whose rectangle contains `ref`'s.
   */
  lemma {:induction false} SearchSound(n: SceneNode, ref: SceneNode)
    ensures Search(n, ref).Some? ==> Answer(n, Search(n, ref).value, ref)
    decreases n, |n.children| + 1
  {
    if HasChildrenProperty(n.nodeType) && !(n.nodeType == FRAME && HasChildWithId(n, ref.id)) &&
       n.nodeType != INSTANCE {
      SearchChildrenSound(n, 0, ref);
    }
  }

  /** The soundness statement shared by `SearchSound` and `SearchChildrenSound`. */
  predicate Answer(n: SceneNode, r: SceneNode, ref: SceneNode) {
    && DescendantOrSelf(n, r)
    && ((r.nodeType == FRAME && HasChildWithId(r, ref.id)) ||
        (r.nodeType != FRAME && r.nodeType != GROUP && Candidate(r, ref)))
  }

  lemma {:induction false} SearchChildrenSound(n: SceneNode, i: nat, ref: SceneNode)
    requires i <= |n.children|
    ensures SearchChildren(n, i, ref).Some? ==> Answer(n, SearchChildren(n, i, ref).value, ref)
    decreases n, |n.children| - i
  {
    if i < |n.children| {
      var child := n.children[i];
      if Candidate(child, ref) {
        if child.nodeType == FRAME || child.nodeType == GROUP {
          SearchSound(child, ref);
          if Search(child, ref).Some? {
            assert DescendantOrSelf(child, Search(child, ref).value);
          }
        } else {
          assert DescendantOrSelf(child, child);
        }
      } else {
        SearchChildrenSound(n, i + 1, ref);
      }
    }
  }

  /**
   * The first candidate at or after `i` decides the loop's result, and with no
   * candidate the loop gives `undefined`: non-candidates never produce the answer.
   */
  lemma {:induction false} FirstCandidateDecides(n: SceneNode, i: nat, ref: SceneNode)
    requires i <= |n.children|
    ensures (forall j :: i <= j < |n.children| ==> !Candidate(n.children[j], ref)) ==>
              SearchChildren(n, i, ref).None?
    ensures forall k :: i <= k < |n.children| && Candidate(n.children[k], ref) &&
                        (forall j :: i <= j < k ==> !Candidate(n.children[j], ref)) ==>
              SearchChildren(n, i, ref) == Stop(n.children[k], ref)
    decreases |n.children| - i
  {
    if i < |n.children| && !Candidate(n.children[i], ref) {
      FirstCandidateDecides(n, i + 1, ref);
      forall k | i <= k < |n.children| && Candidate(n.children[k], ref) &&
                 (forall j :: i <= j < k ==> !Candidate(n.children[j], ref))
        ensures SearchChildren(n, i, ref) == Stop(n.children[k], ref)
      {
        assert k != i;
      }
    }
  }
}
