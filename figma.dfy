/**
 * The host application's data types that the plugin reads and writes:
 * vectors, colours, node types, effects and the canvas node record.
 */
module Figma {
  import opened Wrappers

  /** Figma's global `Vector`. */
  datatype Vec = Vec(x: real, y: real)

  /** Figma's `RGBA`, every channel in the 0..1 "gl" range. */
  datatype Rgba = Rgba(r: real, g: real, b: real, a: real)

  datatype NodeType =
    | DOCUMENT | PAGE | SLICE | FRAME | GROUP | COMPONENT_SET | COMPONENT | INSTANCE
    | BOOLEAN_OPERATION | VECTOR | STAR | LINE | ELLIPSE | POLYGON | RECTANGLE | TEXT
    | STICKY | CONNECTOR | SHAPE_WITH_TEXT | CODE_BLOCK | STAMP | WIDGET | EMBED
    | LINK_UNFURL | MEDIA | SECTION | HIGHLIGHT | WASHI_TAPE | TABLE

  /** Node types that carry a `children` property (`'children' in node`). */
  predicate HasChildrenProperty(t: NodeType) {
    t in {DOCUMENT, PAGE, FRAME, GROUP, COMPONENT_SET, COMPONENT, INSTANCE, BOOLEAN_OPERATION, SECTION}
  }

  datatype ShadowType = DROP_SHADOW | INNER_SHADOW
  datatype BlurType = LAYER_BLUR | BACKGROUND_BLUR
  datatype BlendMode = NORMAL | MULTIPLY | SCREEN | OVERLAY | DARKEN | LIGHTEN

  /** Figma's `Effect`: a drop/inner shadow or a blur. */
  datatype Effect =
    | Shadow(shadowType: ShadowType, color: Rgba, offset: Vec, radius: real, spread: real,
             visible: bool, blendMode: BlendMode)
    | Blur(blurType: BlurType, blurRadius: real, blurVisible: bool)

  /** `effect.type === 'DROP_SHADOW' || effect.type === 'INNER_SHADOW'` */
  predicate IsShadowEffect(e: Effect) {
    e.Shadow?
  }

  /**
   * A scene node as the selection checks and the enclosing-node search see it:
   * its id, type, absolute position (as `getAbsolutePosition` reports it), size
   * and children (empty for node types without a `children` property).
   */
  datatype SceneNode = SceneNode(
    id: string,
    nodeType: NodeType,
    absoluteX: real,
    absoluteY: real,
    width: real,
    height: real,
    children: seq<SceneNode>)

  /** A node's `cornerRadius`: absent, a number, or `figma.mixed` (a symbol). */
  datatype CornerRadius = NoCornerRadius | Radius(r: real) | Mixed

  /** The mutable properties of a canvas node that the plugin touches. */
  datatype CanvasNode = CanvasNode(
    nodeType: NodeType,
    width: real,
    height: real,
    cornerRadius: CornerRadius,
    effects: seq<Effect>,
    pluginData: map<string, string>,
    removed: bool)

  /** `node.getPluginData(key)`: the stored string, or "" when nothing was stored. */
  function GetPluginData(n: CanvasNode, key: string): (s: string)
    ensures key !in n.pluginData ==> s == ""
    ensures key in n.pluginData ==> s == n.pluginData[key]
  {
    if key in n.pluginData then n.pluginData[key] else ""
  }
}
