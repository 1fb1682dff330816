/**
 * The values the Popover works with: its props, the host environment it
 * consults (test mode, `document.body`, popper.js's `getScrollParent`), the
 * popper.js modifiers it builds, and the React element tree it renders.
 * DOM nodes, React subtrees and styles are plain data here.
 */
module PopoverTypes {
  import opened Options

  /** A DOM node, known by identity; `isElement` is what lodash's `isElement` says of it. */
  datatype DomNode = DomNode(id: nat, isElement: bool)

  /** An opaque React subtree supplied by the caller (the `Element` or `Content` slot). */
  datatype Subtree = Subtree(id: nat)

  /** The two child slots after extraction; an absent slot is None. */
  datatype ChildSlots = ChildSlots(element: Option<Subtree>, content: Option<Subtree>)

  /** The side of the target that popper.js places the content on. */
  datatype Edge = Auto | Top | Right | Bottom | Left

  /** The alignment along that side. */
  datatype Variation = Centered | Start | End

  /** A popper.js placement such as `top`, `top-start` or `left-end`. */
  datatype Placement = Placement(edge: Edge, variation: Variation)

  function EdgeName(e: Edge): string {
    match e
    case Auto => "auto"
    case Top => "top"
    case Right => "right"
    case Bottom => "bottom"
    case Left => "left"
  }

  function VariationSuffix(v: Variation): string {
    match v
    case Centered => ""
    case Start => "-start"
    case End => "-end"
  }

  /** The placement string handed to popper.js and to the arrow shift. */
  function PlacementName(p: Placement): string {
    EdgeName(p.edge) + VariationSuffix(p.variation)
  }

  /**
   * An `appendTo` value: a boundary name (`scrollParent`, `viewport`,
   * `window`, or any other string, since prop-types only warns) or a node.
   */
  datatype AppendTo = Named(name: string) | NodeRef(node: DomNode)

  /** JavaScript truthiness of an `appendTo` value: only the empty string is falsy. */
  predicate Truthy(a: AppendTo) {
    match a
    case Named(name) => name != ""
    case NodeRef(_) => true
  }

  /** JavaScript truthiness of an optional integral number: undefined and 0 are falsy. */
  predicate NumberTruthy(n: Option<int>) {
    n.Some? && n.value != 0
  }

  datatype Point = Point(x: int, y: int)

  datatype PopoverProps = PopoverProps(
    placement: Placement,
    shown: bool,
    showArrow: bool,        // an absent prop is false
    moveBy: Option<Point>,
    hideDelay: Option<int>,
    showDelay: Option<int>,
    moveArrowTo: Option<int>,
    appendTo: Option<AppendTo>,
    appendToParent: bool,   // an absent prop is false
    timeout: Option<int>)   // None: the prop was not given

  /**
   * What the component reads from its surroundings: whether NODE_ENV is
   * `test`, the document's body, and popper.js's `getScrollParent`.
   */
  datatype Host = Host(
    isTestEnv: bool,
    body: DomNode,
    getScrollParent: Option<DomNode> -> Option<DomNode>)

  /** A CSS style object: property name to value. */
  type Style = map<string, string>

  datatype OffsetModifier = OffsetModifier(offset: string)
  datatype ComputeStyle = ComputeStyle(enabled: bool)
  datatype PreventOverflow = PreventOverflow(boundariesElement: AppendTo)

  /** The popper.js modifiers object; a modifier that is not set is None. */
  datatype Modifiers = Modifiers(
    offset: OffsetModifier,
    computeStyle: Option<ComputeStyle>,
    preventOverflow: Option<PreventOverflow>)

  /** The class the popper element carries besides `popover`. */
  datatype PopperLook = WithArrow | PlainContent

  /** A child of the popper element. */
  datatype PopperChild =
    | Arrow(style: Style)                     // <Arrow style=...>
    | ContentWrapper(content: Option<Subtree>) // <div>{Content}</div>
    | BareContent(content: Option<Subtree>)    // {Content}

  datatype PopperElement = Popper(
    modifiers: Modifiers,
    placement: Placement,
    look: PopperLook,
    children: seq<PopperChild>)

  /** What `renderPopper` returns: the popper itself or the popper inside a Portal. */
  datatype PopperTree = Inline(popper: PopperElement) | Portal(node: DomNode, popper: PopperElement)

  /** A CSSTransition element; `isIn` is its `in` prop. */
  datatype Transition = CSSTransition(isIn: bool, timeout: int, unmountOnExit: bool, child: PopperTree)

  /** The Target element: a div (whose ref is the anchor) holding the Element slot. */
  datatype Target = Target(anchor: Option<Subtree>)

  /** The Manager element and its three children as the component renders them. */
  datatype Rendered = Manager(target: Target, animated: Option<Transition>, immediate: Option<PopperTree>)
}
