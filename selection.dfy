/**
 * src/utils/selection.ts: classifying the page selection before shadows are
 * drawn on it.
 */
module Selection {
  import opened Wrappers
  import opened Figma

  datatype SelectionState =
    | MULTIPLE | VALID | INVALID | HAS_COMPONENT_CHILD | IS_WITHIN_COMPONENT | IS_WITHIN_INSTANCE | EMPTY

  /**
   * A selected node together with the types of its ancestors, nearest first
   * (`node.parent`, `node.parent.parent`, ...); the chain ends where `parent` is null.
   */
  datatype Selected = Selected(node: SceneNode, parents: seq<NodeType>)

  /** `isWithinNodeType(node, type)`: walks up until the page, looking for `type`. */
  function IsWithinNodeType(parents: seq<NodeType>, t: NodeType): (r: bool)
    ensures t == DOCUMENT || t == PAGE ==> !r
    ensures |parents| == 0 ==> !r
  {
    if |parents| == 0 || parents[0] == DOCUMENT || parents[0] == PAGE then false
    else if parents[0] == t then true
    else IsWithinNodeType(parents[1..], t)
  }

  /** The ancestors strictly below the first document or page. */
  predicate BelowPage(parents: seq<NodeType>, k: int) {
    0 <= k < |parents| && forall j :: 0 <= j <= k ==> parents[j] != DOCUMENT && parents[j] != PAGE
  }

  /** `isWithinNodeType` holds exactly when an ancestor below the page has the type. */
  lemma {:induction false} IsWithinNodeTypeSpec(parents: seq<NodeType>, t: NodeType)
    ensures IsWithinNodeType(parents, t) <==> exists k :: BelowPage(parents, k) && parents[k] == t
  {
    // Where the walk stops at once, no index satisfies `BelowPage`.
    if |parents| > 0 && parents[0] != DOCUMENT && parents[0] != PAGE {
      if parents[0] == t {
        assert BelowPage(parents, 0);
      } else {
        var rest := parents[1..];
        IsWithinNodeTypeSpec(rest, t);
        if IsWithinNodeType(rest, t) {
          var k :| BelowPage(rest, k) && rest[k] == t;
          assert BelowPage(parents, k + 1) && parents[k + 1] == t;
        }
        if exists k :: BelowPage(parents, k) && parents[k] == t {
          var k :| BelowPage(parents, k) && parents[k] == t;
          assert k > 0;
          assert BelowPage(rest, k - 1) && rest[k - 1] == t;
        }
      }
    }
  }

  /**
   * `hasComponentChild(node)`: `true` for a component, `false` for anything but
   * a group; for a group, the value the `.some` callback assigned last, which is
   * `true` as soon as one child has it and `undefined` (`None`) for an empty group.
   */
  function HasComponentChild(n: SceneNode): Option<bool>
    decreases n, |n.children| + 1
  {
    if n.nodeType == COMPONENT then Some(true)
    else if n.nodeType != GROUP then Some(false)
    else SomeChild(n, 0, None)
  }

  /** The `.some` loop over the children from index `i`; `last` holds the value assigned last. */
  function SomeChild(n: SceneNode, i: nat, last: Option<bool>): Option<bool>
    requires i <= |n.children|
    decreases n, |n.children| - i
  {
    if i == |n.children| then last
    else
      var v := HasComponentChild(n.children[i]);
      if v == Some(true) then v else SomeChild(n, i + 1, v)
  }

  /** The reference definition: the node is a component, or a group with a child that contains one. */
  predicate ContainsComponent(n: SceneNode) {
    n.nodeType == COMPONENT ||
    (n.nodeType == GROUP && exists i :: 0 <= i < |n.children| && ContainsComponent(n.children[i]))
  }

  /**
   * `hasComponentChild` is truthy exactly when the node contains a component
   * through groups; when it is falsy on a non-empty group it is the value of the
   * last child, and an empty group gives `undefined`.
   */
  lemma {:induction false} HasComponentChildSpec(n: SceneNode)
    ensures HasComponentChild(n) == Some(true) <==> ContainsComponent(n)
    ensures n.nodeType == GROUP && |n.children| == 0 ==> HasComponentChild(n) == None
    ensures n.nodeType == GROUP && |n.children| > 0 && !ContainsComponent(n) ==>
              HasComponentChild(n) == HasComponentChild(n.children[|n.children| - 1])
    decreases n, |n.children| + 1
  {
    if n.nodeType == GROUP {
      SomeChildSpec(n, 0, None);
    }
  }

  lemma {:induction false} SomeChildSpec(n: SceneNode, i: nat, last: Option<bool>)
    requires i <= |n.children| && last != Some(true)
    ensures SomeChild(n, i, last) == Some(true) <==>
              exists j :: i <= j < |n.children| && ContainsComponent(n.children[j])
    ensures i < |n.children| && SomeChild(n, i, last) != Some(true) ==>
              SomeChild(n, i, last) == HasComponentChild(n.children[|n.children| - 1])
    ensures i == |n.children| ==> SomeChild(n, i, last) == last
    decreases n, |n.children| - i
  {
    if i < |n.children| {
      var c := n.children[i];
      HasComponentChildSpec(c);
      if HasComponentChild(c) != Some(true) {
        SomeChildSpec(n, i + 1, HasComponentChild(c));
        if exists j :: i <= j < |n.children| && ContainsComponent(n.children[j]) {
          var j :| i <= j < |n.children| && ContainsComponent(n.children[j]);
          assert j != i;
        }
      }
    }
  }

  /**
   * `validateSelection(selection, validNodeTypes)`: the checks run in the order
   * empty, multiple, type, within a component, within an instance, group with a
   * component child.
   */
  function ValidateSelection(selection: seq<Selected>, validNodeTypes: seq<NodeType>): (r: SelectionState)
    ensures r == EMPTY <==> |selection| == 0
    ensures r == MULTIPLE <==> |selection| > 1
    ensures r == INVALID <==> |selection| == 1 && selection[0].node.nodeType !in validNodeTypes
    ensures r == IS_WITHIN_COMPONENT <==>
              |selection| == 1 && selection[0].node.nodeType in validNodeTypes &&
              IsWithinNodeType(selection[0].parents, COMPONENT)
    ensures r == IS_WITHIN_INSTANCE <==>
              |selection| == 1 && selection[0].node.nodeType in validNodeTypes &&
              !IsWithinNodeType(selection[0].parents, COMPONENT) &&
              IsWithinNodeType(selection[0].parents, INSTANCE)
    ensures r == HAS_COMPONENT_CHILD <==>
              |selection| == 1 && selection[0].node.nodeType in validNodeTypes &&
              !IsWithinNodeType(selection[0].parents, COMPONENT) &&
              !IsWithinNodeType(selection[0].parents, INSTANCE) &&
              selection[0].node.nodeType == GROUP && HasComponentChild(selection[0].node) == Some(true)
  {
    if |selection| > 0 then
      if |selection| > 1 then MULTIPLE
      else
        var node := selection[0].node;
        if node.nodeType in validNodeTypes then
          if IsWithinNodeType(selection[0].parents, COMPONENT) then IS_WITHIN_COMPONENT
          else if IsWithinNodeType(selection[0].parents, INSTANCE) then IS_WITHIN_INSTANCE
          else if node.nodeType == GROUP && HasComponentChild(node) == Some(true) then HAS_COMPONENT_CHILD
          else VALID
        else INVALID
    else EMPTY
  }

  /** A single valid node outside components and instances is `VALID` unless it is a group holding a component. */
  lemma ValidateSingle(s: Selected, validNodeTypes: seq<NodeType>)
    requires s.node.nodeType in validNodeTypes
    requires forall k :: BelowPage(s.parents, k) ==> s.parents[k] != COMPONENT && s.parents[k] != INSTANCE
    ensures ValidateSelection([s], validNodeTypes) == VALID <==>
              !(s.node.nodeType == GROUP && ContainsComponent(s.node))
  {
    IsWithinNodeTypeSpec(s.parents, COMPONENT);
    IsWithinNodeTypeSpec(s.parents, INSTANCE);
    HasComponentChildSpec(s.node);
  }
}
