/**
 * src/main.ts: the plugin's main thread. It keeps a reference to the selected
 * node and that node's effects from before the plugin touched it, redraws the
 * shadow layers whenever the UI sends new settings, and on close either
 * restores the saved effects or (after APPLY) stores the settings on the node.
 */
module Plugin {
  import opened Wrappers
  import opened Figma
  import opened Js
  import opened Selection
  import opened Shadow
  import opened AppStore

  const VERSION: int := 16
  const PLUGIN_DATA_KEY: string := "beautiful_shadow"
  const NUM_SHADOWS: nat := 6

  /** `VALID_NODE_TYPES` */
  const VALID_NODE_TYPES: seq<NodeType> :=
    [BOOLEAN_OPERATION, COMPONENT, INSTANCE, ELLIPSE, FRAME, GROUP, LINE, POLYGON, RECTANGLE, STAR, TEXT, VECTOR]

  /** `ERROR_MSG.MULTIPLE` */
  const MULTIPLE_MESSAGE: string := "Select only one element or group elements together."
  /** `ERROR_MSG.INVALID` */
  const INVALID_MESSAGE: string := "Element type not supported."

  /**
   * `JSON.stringify` and `JSON.parse` on the saved object; a parse that throws
   * is `None`.
   */
  datatype Json = Json(stringify: SavedData -> string, parse: string -> Option<SavedData>) {
    /** Parsing gives back what was written, and a written object is never the empty string. */
    ghost predicate Laws() {
      forall d: SavedData :: stringify(d) != "" && parse(stringify(d)) == Some(d)
    }
  }

  // ---------------------------------------------------------------- effects

  /** `effects.filter(e => e.type !== 'DROP_SHADOW' && e.type !== 'INNER_SHADOW')` */
  function StripShadowEffects(effects: seq<Effect>): (r: seq<Effect>)
    ensures |r| <= |effects|
    ensures forall e :: e in r <==> e in effects && !IsShadowEffect(e)
    ensures (forall e :: e in effects ==> !IsShadowEffect(e)) ==> r == effects
  {
    if |effects| == 0 then []
    else if IsShadowEffect(effects[0]) then StripShadowEffects(effects[1..])
    else [effects[0]] + StripShadowEffects(effects[1..])
  }

  /** Filtering distributes over concatenation, so the original order is kept. */
  lemma {:induction false} StripConcat(a: seq<Effect>, b: seq<Effect>)
    ensures StripShadowEffects(a + b) == StripShadowEffects(a) + StripShadowEffects(b)
  {
    if |a| > 0 {
      assert (a + b)[1..] == a[1..] + b;
      StripConcat(a[1..], b);
    } else {
      assert a + b == b;
    }
  }

  /** A list made of shadows only filters to nothing. */
  lemma {:induction false} StripShadowsOnly(layers: seq<Effect>)
    requires forall e :: e in layers ==> IsShadowEffect(e)
    ensures StripShadowEffects(layers) == []
  {
    if |layers| > 0 {
      assert layers[0] in layers;
      assert forall e :: e in layers[1..] ==> e in layers;
      StripShadowsOnly(layers[1..]);
    }
  }

  /** The node's effects after a redraw: its own non-shadow effects, then the layers. */
  function Redrawn(effects: seq<Effect>, layers: seq<Effect>): seq<Effect> {
    StripShadowEffects(effects) + layers
  }

  /**
   * Redrawing over a previous redraw replaces the previous layers: only the
   * latest layers and the node's own non-shadow effects remain.
   */
  lemma RedrawReplaces(effects: seq<Effect>, first: seq<Effect>, second: seq<Effect>)
    requires forall e :: e in first ==> IsShadowEffect(e)
    ensures Redrawn(Redrawn(effects, first), second) == Redrawn(effects, second)
  {
    StripConcat(StripShadowEffects(effects), first);
    StripShadowsOnly(first);
    assert StripShadowEffects(StripShadowEffects(effects)) == StripShadowEffects(effects);
    assert StripShadowEffects(effects) + [] == StripShadowEffects(effects);
  }

  /**
   * The parameter `drawShadows` passes to `getCastedShadows`. It hands over the
   * shadow colour as `color`, a key `getCastedShadows` does not read, and no
   * `backgroundColor`, so the layers come out untinted.
   */
  function DrawParameter(d: PluginData, n: CanvasNode): (p: ShadowParameter)
    ensures p.numShadows == NUM_SHADOWS && p.backgroundColor.None?
    ensures p.size == Size(n.width, n.height)
  {
    ShadowParameter(NUM_SHADOWS, d.azimuth, d.distance, d.elevation, d.brightness, None,
                    Size(n.width, n.height))
  }

  // ---------------------------------------------------------------- plugin data

  /** `{ ...pluginData, version: VERSION }` */
  function Stamped(d: Option<PluginData>): SavedData {
    SavedData(d, Some(VERSION))
  }

  /** `node.setPluginData(PLUGIN_DATA_KEY, JSON.stringify(...))` */
  function Save(json: Json, n: CanvasNode, d: Option<PluginData>): CanvasNode {
    n.(pluginData := n.pluginData[PLUGIN_DATA_KEY := json.stringify(Stamped(d))])
  }

  /** The body of `checkIfExistingShadowData` once a node is referenced. */
  function LoadSaved(json: Json, n: CanvasNode): (r: Option<SavedData>)
    ensures PLUGIN_DATA_KEY !in n.pluginData ==> r.None?
  {
    var text := GetPluginData(n, PLUGIN_DATA_KEY);
    if text != "" then json.parse(text) else None
  }

  /** What `close` after APPLY writes, `checkIfExistingShadowData` reads back, stamped with the version. */
  lemma SaveLoadRoundTrip(json: Json, n: CanvasNode, d: Option<PluginData>)
    requires json.Laws()
    ensures LoadSaved(json, Save(json, n, d)) == Some(SavedData(d, Some(VERSION)))
    ensures Save(json, n, d).effects == n.effects
  {
    assert GetPluginData(Save(json, n, d), PLUGIN_DATA_KEY) == json.stringify(Stamped(d));
  }

  // ---------------------------------------------------------------- session

  /** The closure state of the plugin, with the document's nodes by id. */
  datatype Session = Session(
    nodes: map<string, CanvasNode>,
    nodeRef: Option<string>,
    existingNodeEffects: Option<seq<Effect>>,
    pluginData: Option<PluginData>,
    applied: bool)

  /** A referenced node exists, and its saved effects are kept exactly while it is referenced. */
  predicate Consistent(s: Session) {
    && (s.nodeRef.Some? ==> s.nodeRef.value in s.nodes)
    && (s.nodeRef.Some? <==> s.existingNodeEffects.Some?)
  }

  /** `nodeRef?.removed` */
  predicate RefRemoved(s: Session)
    requires Consistent(s)
  {
    s.nodeRef.Some? && s.nodes[s.nodeRef.value].removed
  }

  /**
   * `cleanUpAndRestorePrevEffects`: unless the referenced node was removed, its
   * effects are put back and the reference and saved effects are cleared.
   */
  function CleanUp(s: Session): (r: Session)
    requires Consistent(s)
    ensures Consistent(r) && r.nodes.Keys == s.nodes.Keys
    ensures r.pluginData == s.pluginData && r.applied == s.applied
    ensures RefRemoved(s) ==> r == s
    ensures !RefRemoved(s) ==> r.nodeRef.None? && r.existingNodeEffects.None?
    ensures !RefRemoved(s) && s.nodeRef.Some? ==>
              r.nodes == s.nodes[s.nodeRef.value := s.nodes[s.nodeRef.value].(effects := s.existingNodeEffects.value)]
    ensures s.nodeRef.None? ==> r.nodes == s.nodes
  {
    if RefRemoved(s) then s
    else
      var nodes := if s.nodeRef.Some? then
                     s.nodes[s.nodeRef.value := s.nodes[s.nodeRef.value].(effects := s.existingNodeEffects.value)]
                   else s.nodes;
      s.(nodes := nodes, nodeRef := None, existingNodeEffects := None)
  }

  /**
   * `drawShadows`: nothing happens for a removed or missing node or before any
   * settings arrived; otherwise the node keeps its non-shadow effects in order
   * and gets the six freshly computed layers after them.
   */
  function Draw(prims: Prims, s: Session): (r: Session)
    requires Consistent(s)
    ensures Consistent(r) && r.nodes.Keys == s.nodes.Keys
    ensures r.nodeRef == s.nodeRef && r.existingNodeEffects == s.existingNodeEffects
    ensures r.pluginData == s.pluginData && r.applied == s.applied
    ensures RefRemoved(s) || s.nodeRef.None? || s.pluginData.None? ==> r == s
    ensures !RefRemoved(s) && s.nodeRef.Some? && s.pluginData.Some? ==>
              var n := s.nodes[s.nodeRef.value];
              r.nodes == s.nodes[s.nodeRef.value :=
                n.(effects := StripShadowEffects(n.effects) +
                              GetCastedShadows(prims, DrawParameter(s.pluginData.value, n)))]
  {
    if RefRemoved(s) || s.nodeRef.None? || s.pluginData.None? then s
    else
      var n := s.nodes[s.nodeRef.value];
      var shadows := GetCastedShadows(prims, DrawParameter(s.pluginData.value, n));
      s.(nodes := s.nodes[s.nodeRef.value := n.(effects := Redrawn(n.effects, shadows))])
  }

  /** `updateSceneAndRedrawShadows(data)`: the settings are replaced wholesale, then redrawn. */
  function Update(prims: Prims, s: Session, data: PluginData): (r: Session)
    requires Consistent(s)
    ensures Consistent(r) && r.pluginData == Some(data) && r.nodes.Keys == s.nodes.Keys
    ensures r.nodeRef == s.nodeRef && r.existingNodeEffects == s.existingNodeEffects
    ensures RefRemoved(s) || s.nodeRef.None? ==> r.nodes == s.nodes
    ensures !RefRemoved(s) && s.nodeRef.Some? ==>
              var n := s.nodes[s.nodeRef.value];
              r.nodes == s.nodes[s.nodeRef.value :=
                n.(effects := StripShadowEffects(n.effects) + GetCastedShadows(prims, DrawParameter(data, n)))]
  {
    Draw(prims, s.(pluginData := Some(data)))
  }

  /** The notification `handleSelectionChange` shows for a selection state. */
  function Notice(state: SelectionState): (m: Option<string>)
    ensures m.Some? <==> state == MULTIPLE || state == INVALID
    ensures state == MULTIPLE ==> m == Some(MULTIPLE_MESSAGE)
    ensures state == INVALID ==> m == Some(INVALID_MESSAGE)
  {
    if state == MULTIPLE then Some(MULTIPLE_MESSAGE)
    else if state == INVALID then Some(INVALID_MESSAGE)
    else None
  }

  /** The host guarantees that a selected node is in the document. */
  predicate SelectionInDocument(s: Session, selection: seq<Selected>) {
    |selection| == 1 ==> selection[0].node.id in s.nodes
  }

  /**
   * The state part of `handleSelectionChange`: an empty, multiple or invalid
   * selection restores and clears; a valid node or one inside a component is
   * referenced after the previous one is restored; a node inside an instance or
   * a group holding a component leaves everything as it was.
   */
  function SelectionChange(s: Session, selection: seq<Selected>): (r: Session)
    requires Consistent(s) && SelectionInDocument(s, selection)
    ensures Consistent(r) && r.nodes.Keys == s.nodes.Keys
    ensures r.pluginData == s.pluginData && r.applied == s.applied
    ensures var state := ValidateSelection(selection, VALID_NODE_TYPES);
      && (state in {EMPTY, MULTIPLE, INVALID} ==> r == CleanUp(s))
      && (state in {IS_WITHIN_INSTANCE, HAS_COMPONENT_CHILD} ==> r == s)
      && (state in {VALID, IS_WITHIN_COMPONENT} ==>
            && r.nodeRef == Some(selection[0].node.id)
            && r.existingNodeEffects == Some(r.nodes[selection[0].node.id].effects)
            && r.nodes == (if s.nodeRef.Some? then CleanUp(s) else s).nodes)
  {
    var state := ValidateSelection(selection, VALID_NODE_TYPES);
    if state == EMPTY || state == MULTIPLE || state == INVALID then CleanUp(s)
    else if state == VALID || state == IS_WITHIN_COMPONENT then
      var s1 := if s.nodeRef.Some? then CleanUp(s) else s;
      var id := selection[0].node.id;
      s1.(nodeRef := Some(id), existingNodeEffects := Some(s1.nodes[id].effects))
    else s
  }

  /** `checkIfExistingShadowData()`: nothing without a node, without stored text, or when parsing fails. */
  function ExistingShadowData(json: Json, s: Session): (r: Option<SavedData>)
    requires Consistent(s)
    ensures s.nodeRef.None? ==> r.None?
    ensures s.nodeRef.Some? ==> r == LoadSaved(json, s.nodes[s.nodeRef.value])
  {
    if s.nodeRef.None? then None else LoadSaved(json, s.nodes[s.nodeRef.value])
  }

  /** A node's `cornerRadius` as the selection record carries it: `figma.mixed` becomes 0. */
  function CornerRadiusValue(c: CornerRadius): (r: Option<real>)
    ensures c.Mixed? ==> r == Some(0.0)
    ensures c.NoCornerRadius? ==> r.None?
    ensures c.Radius? ==> r == Some(c.r)
  {
    match c
    case NoCornerRadius => None
    case Radius(v) => Some(v)
    case Mixed => Some(0.0)
  }

  /**
   * The `SELECTION_CHANGE` payload after the state update: nothing is sent for
   * a removed node; otherwise the referenced node's type, size and corner
   * radius (zeros and `undefined` without a node) and its saved data.
   */
  function SelectionPayload(json: Json, s: Session, state: SelectionState): (r: Option<SelectionRecord>)
    requires Consistent(s)
    ensures RefRemoved(s) <==> r.None?
    ensures r.Some? ==> r.value.state == state && r.value.derivedBackgroundColor.None?
    ensures r.Some? ==> r.value.prevShadowEffects == ExistingShadowData(json, s)
    ensures r.Some? && s.nodeRef.None? ==>
              r.value.width == 0.0 && r.value.height == 0.0 && r.value.nodeType.None? && r.value.cornerRadius.None?
  {
    if RefRemoved(s) then None
    else
      var node := if s.nodeRef.Some? then Some(s.nodes[s.nodeRef.value]) else None;
      Some(SelectionRecord(
        state,
        if node.Some? then node.value.width else 0.0,
        if node.Some? then node.value.height else 0.0,
        if node.Some? then CornerRadiusValue(node.value.cornerRadius) else None,
        if node.Some? then Some(node.value.nodeType) else None,
        None,
        ExistingShadowData(json, s)))
  }

  /**
   * The `close` handler: after APPLY the settings are stored on the referenced
   * node (the layers stay); otherwise the node's previous effects are restored.
   */
  function Close(json: Json, s: Session): (r: Session)
    requires Consistent(s)
    ensures Consistent(r) && r.nodes.Keys == s.nodes.Keys
    ensures !s.applied ==> r == CleanUp(s)
    ensures s.applied && s.nodeRef.Some? && !RefRemoved(s) ==>
              r == s.(nodes := s.nodes[s.nodeRef.value := Save(json, s.nodes[s.nodeRef.value], s.pluginData)])
  {
    if s.applied then
      if s.nodeRef.Some? && !RefRemoved(s) then
        s.(nodes := s.nodes[s.nodeRef.value := Save(json, s.nodes[s.nodeRef.value], s.pluginData)])
      else s
    else CleanUp(s)
  }

  /** The `APPLY` message: set the flag, then the plugin closes. */
  function Apply(json: Json, s: Session): (r: Session)
    requires Consistent(s)
    ensures Consistent(r) && r.applied && r.nodes.Keys == s.nodes.Keys
    ensures r.nodeRef == s.nodeRef && r.pluginData == s.pluginData
    ensures s.nodeRef.Some? && !RefRemoved(s) ==>
              var id := s.nodeRef.value;
              && r.nodes[id].effects == s.nodes[id].effects
              && r.nodes[id].pluginData == s.nodes[id].pluginData[PLUGIN_DATA_KEY := json.stringify(Stamped(s.pluginData))]
              && (forall other :: other in s.nodes && other != id ==> r.nodes[other] == s.nodes[other])
  {
    Close(json, s.(applied := true))
  }

  /** Settings stored by APPLY are what the next session finds on the node, and the layers stay. */
  lemma ApplyPersists(json: Json, s: Session)
    requires json.Laws() && Consistent(s) && s.nodeRef.Some? && !RefRemoved(s)
    ensures var r := Apply(json, s);
      && ExistingShadowData(json, r) == Some(SavedData(s.pluginData, Some(VERSION)))
      && r.nodes[s.nodeRef.value].effects == s.nodes[s.nodeRef.value].effects
  {
    SaveLoadRoundTrip(json, s.nodes[s.nodeRef.value], s.pluginData);
  }

  /** Closing without APPLY never writes plugin data to any node. */
  lemma CloseWithoutApplyKeepsData(json: Json, s: Session)
    requires Consistent(s) && !s.applied
    ensures forall id :: id in s.nodes ==>
              Close(json, s).nodes[id].pluginData == s.nodes[id].pluginData
  {
  }

  /** A run of `UPDATE_SHADOWS` messages. */
  function Updates(prims: Prims, s: Session, data: seq<PluginData>): (r: Session)
    requires Consistent(s)
    ensures Consistent(r) && r.nodes.Keys == s.nodes.Keys
    ensures r.nodeRef == s.nodeRef && r.existingNodeEffects == s.existingNodeEffects
    ensures forall id :: id in s.nodes && Some(id) != s.nodeRef ==> r.nodes[id] == s.nodes[id]
    ensures s.nodeRef.Some? && !RefRemoved(s) ==> !RefRemoved(r)
    decreases |data|
  {
    if |data| == 0 then s else Updates(prims, Update(prims, s, data[0]), data[1..])
  }

  /**
   * Selecting a node (valid, or inside a component), redrawing it any number
   * of times and then deselecting it leaves the node with exactly the effects
   * it had before it was selected, and no other node changed.
   */
  lemma {:induction false} SelectEditDeselectRestores(
    prims: Prims, s: Session, sel: Selected, data: seq<PluginData>, deselect: seq<Selected>)
    requires Consistent(s) && s.nodeRef.None?
    requires sel.node.id in s.nodes && !s.nodes[sel.node.id].removed
    requires ValidateSelection([sel], VALID_NODE_TYPES) in {VALID, IS_WITHIN_COMPONENT}
    requires ValidateSelection(deselect, VALID_NODE_TYPES) in {EMPTY, MULTIPLE, INVALID}
    requires SelectionInDocument(s, deselect)
    ensures var s1 := SelectionChange(s, [sel]);
      var s2 := Updates(prims, s1, data);
      var s3 := SelectionChange(s2, deselect);
      && s3.nodes[sel.node.id] == s.nodes[sel.node.id]
      && s3.nodeRef.None?
      && (forall id :: id in s.nodes && id != sel.node.id ==> s3.nodes[id] == s.nodes[id])
  {
    var s1 := SelectionChange(s, [sel]);
    assert s1.nodes == s.nodes;
    assert s1.existingNodeEffects == Some(s.nodes[sel.node.id].effects);
    var s2 := Updates(prims, s1, data);
    UpdatesKeepNode(prims, s1, data);
    assert !RefRemoved(s2);
    var s3 := SelectionChange(s2, deselect);
    assert s3 == CleanUp(s2);
  }

  /** Redraws change only the effects of the referenced node. */
  lemma {:induction false} UpdatesKeepNode(prims: Prims, s: Session, data: seq<PluginData>)
    requires Consistent(s) && s.nodeRef.Some? && !RefRemoved(s)
    ensures var r := Updates(prims, s, data);
      r.nodes[s.nodeRef.value] == s.nodes[s.nodeRef.value].(effects := r.nodes[s.nodeRef.value].effects)
    decreases |data|
  {
    if |data| > 0 {
      UpdatesKeepNode(prims, Update(prims, s, data[0]), data[1..]);
    }
  }

  // ---------------------------------------------------------------- the main thread

  /** The plugin's main-thread closure, acting on the document's nodes. */
  class Controller {
    var nodes: map<string, CanvasNode>
    var nodeRef: Option<string>
    var existingNodeEffects: Option<seq<Effect>>
    var pluginData: Option<PluginData>
    var applied: bool
    const prims: Prims
    const json: Json

    function Snapshot(): Session
      reads this
    {
      Session(nodes, nodeRef, existingNodeEffects, pluginData, applied)
    }

    ghost predicate Valid()
      reads this
    {
      Consistent(Snapshot())
    }

    constructor (document: map<string, CanvasNode>, prims: Prims, json: Json)
      ensures Valid()
      ensures Snapshot() == Session(document, None, None, None, false)
      ensures this.prims == prims && this.json == json
    {
      nodes := document;
      nodeRef := None;
      existingNodeEffects := None;
      pluginData := None;
      applied := false;
      this.prims := prims;
      this.json := json;
    }

    method CleanUpAndRestorePrevEffects()
      requires Valid()
      modifies this
      ensures Valid() && Snapshot() == CleanUp(old(Snapshot()))
    {
      if nodeRef.Some? && nodes[nodeRef.value].removed {
        return;
      }
      if nodeRef.Some? {
        var id := nodeRef.value;
        nodes := nodes[id := nodes[id].(effects := existingNodeEffects.value)];
      }
      nodeRef := None;
      existingNodeEffects := None;
    }

    method DrawShadows()
      requires Valid()
      modifies this
      ensures Valid() && Snapshot() == Draw(prims, old(Snapshot()))
    {
      if nodeRef.Some? && nodes[nodeRef.value].removed {
        return;
      }
      if nodeRef.None? || pluginData.None? {
        return;
      }
      var id := nodeRef.value;
      var node := nodes[id];
      var shadows := GetCastedShadows(prims, DrawParameter(pluginData.value, node));
      var kept := StripShadowEffects(node.effects);
      nodes := nodes[id := node.(effects := kept + shadows)];
    }

    method UpdateSceneAndRedrawShadows(data: PluginData)
      requires Valid()
      modifies this
      ensures Valid() && Snapshot() == Update(prims, old(Snapshot()), data)
    {
      pluginData := Some(data);
      DrawShadows();
    }

    /** Returns the notification shown and the `SELECTION_CHANGE` payload emitted, if any. */
    method HandleSelectionChange(selection: seq<Selected>)
      returns (notice: Option<string>, emitted: Option<SelectionRecord>)
      requires Valid() && SelectionInDocument(Snapshot(), selection)
      modifies this
      ensures Valid() && Snapshot() == SelectionChange(old(Snapshot()), selection)
      ensures notice == Notice(ValidateSelection(selection, VALID_NODE_TYPES))
      ensures emitted == SelectionPayload(json, Snapshot(), ValidateSelection(selection, VALID_NODE_TYPES))
    {
      var state := ValidateSelection(selection, VALID_NODE_TYPES);
      notice := None;
      if state == EMPTY {
        CleanUpAndRestorePrevEffects();
      } else if state == MULTIPLE || state == INVALID {
        CleanUpAndRestorePrevEffects();
        notice := if state == MULTIPLE then Some(MULTIPLE_MESSAGE) else Some(INVALID_MESSAGE);
      } else if state == VALID || state == IS_WITHIN_COMPONENT {
        if nodeRef.Some? {
          CleanUpAndRestorePrevEffects();
        }
        var id := selection[0].node.id;
        nodeRef := Some(id);
        existingNodeEffects := Some(nodes[id].effects);
      }
      if nodeRef.Some? && nodes[nodeRef.value].removed {
        emitted := None;
        return;
      }
      var node := if nodeRef.Some? then Some(nodes[nodeRef.value]) else None;
      var data := SelectionRecord(
        state,
        if node.Some? then node.value.width else 0.0,
        if node.Some? then node.value.height else 0.0,
        if node.Some? then CornerRadiusValue(node.value.cornerRadius) else None,
        if node.Some? then Some(node.value.nodeType) else None,
        None,
        ExistingShadowData(json, Snapshot()));
      emitted := Some(data);
    }

    /** The `close` event. */
    method OnClose()
      requires Valid()
      modifies this
      ensures Valid() && Snapshot() == Close(json, old(Snapshot()))
    {
      if applied {
        if nodeRef.Some? && !nodes[nodeRef.value].removed {
          var id := nodeRef.value;
          nodes := nodes[id := Save(json, nodes[id], pluginData)];
        }
      } else {
        CleanUpAndRestorePrevEffects();
      }
    }

    /** The `APPLY` message: the flag is set and closing the plugin fires `close`. */
    method OnApply()
      requires Valid()
      modifies this
      ensures Valid() && Snapshot() == Apply(json, old(Snapshot()))
    {
      applied := true;
      OnClose();
    }
  }
}
