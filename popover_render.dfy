/**
 * renderPopper: where the floating content is mounted and what the popper
 * element holds.
 */
module PopoverRender {
  import opened Options
  import opened PopoverTypes
  import opened PopoverModifiers
  import opened JsText

  /** `modifiers.preventOverflow && modifiers.preventOverflow.boundariesElement`. */
  function BoundaryOf(m: Modifiers): Option<AppendTo> {
    match m.preventOverflow
    case None => None
    case Some(po) => Some(po.boundariesElement)
  }

  /** lodash `isElement` of a boundary value: strings never are. */
  predicate IsElement(b: AppendTo) {
    b.NodeRef? && b.node.isElement
  }

  /**
   * The node the popper is portalled into, first match winning: the body for
   * `window` and `viewport`, the target's scroll parent for `scrollParent`,
   * the boundary itself when it is an element, and none otherwise.
   */
  function MountPoint(boundary: Option<AppendTo>, targetRef: Option<DomNode>, host: Host): (r: Option<DomNode>)
    ensures boundary.None? ==> r.None?
    ensures boundary == Some(Named("window")) || boundary == Some(Named("viewport")) ==> r == Some(host.body)
    ensures boundary == Some(Named("scrollParent")) ==> r == host.getScrollParent(targetRef)
    ensures boundary.Some? && boundary.value.NodeRef? ==>
      r == (if boundary.value.node.isElement then Some(boundary.value.node) else None)
    ensures boundary.Some? && boundary.value.Named? && boundary.value.name !in {"window", "viewport", "scrollParent"} ==>
      r.None?
  {
    match boundary
    case None => None
    case Some(b) =>
      if b == Named("window") || b == Named("viewport") then Some(host.body)
      else if b == Named("scrollParent") then host.getScrollParent(targetRef)
      else if IsElement(b) then Some(b.node)
      else None
  }

  /** The children of the popper element. */
  function PopperChildren(showArrow: bool, arrowStyle: Style, content: Option<Subtree>): seq<PopperChild> {
    if showArrow then [Arrow(arrowStyle), ContentWrapper(content)] else [BareContent(content)]
  }

  predicate HasArrow(children: seq<PopperChild>) {
    exists i :: 0 <= i < |children| && children[i].Arrow?
  }

  /** The Content slots the children render, in order. */
  function ContentsOf(children: seq<PopperChild>): seq<Option<Subtree>> {
    if children == [] then [] else ContentOf(children[0]) + ContentsOf(children[1..])
  }

  function ContentOf(c: PopperChild): seq<Option<Subtree>> {
    match c
    case Arrow(_) => []
    case ContentWrapper(content) => [content]
    case BareContent(content) => [content]
  }

  /**
   * renderPopper: the popper carries the modifiers and placement; it is
   * wrapped in a Portal exactly when a mount point is found, and into that
   * mount point; with an arrow it holds the arrow, shifted by moveArrowTo,
   * before the wrapped Content, and without one only the bare Content.
   */
  function RenderPopper(
    modifiers: Modifiers, placement: Placement, showArrow: bool, moveArrowTo: Option<int>,
    content: Option<Subtree>, targetRef: Option<DomNode>, host: Host): (t: PopperTree)
    ensures t.popper.modifiers == modifiers && t.popper.placement == placement
    ensures t.Portal? <==> MountPoint(BoundaryOf(modifiers), targetRef, host).Some?
    ensures t.Portal? ==> Some(t.node) == MountPoint(BoundaryOf(modifiers), targetRef, host)
    ensures t.popper.look == (if showArrow then WithArrow else PlainContent)
    ensures HasArrow(t.popper.children) <==> showArrow
    ensures showArrow ==> t.popper.children[0] == Arrow(ArrowShift(moveArrowTo, PlacementName(placement), host.isTestEnv))
    ensures ContentsOf(t.popper.children) == [content]
    ensures t.popper.children ==
      if showArrow then [Arrow(ArrowShift(moveArrowTo, PlacementName(placement), host.isTestEnv)), ContentWrapper(content)]
      else [BareContent(content)]
  {
    var children := PopperChildren(showArrow, ArrowShift(moveArrowTo, PlacementName(placement), host.isTestEnv), content);
    assert ContentsOf(children) == [content] by {
      if showArrow {
        assert children[1..] == [ContentWrapper(content)];
        assert children[1..][1..] == [];
        assert ContentsOf(children[1..]) == [content] + ContentsOf([]);
        assert ContentsOf(children) == [] + ContentsOf(children[1..]);
      } else {
        assert children[1..] == [];
        assert ContentsOf(children) == [content] + ContentsOf([]);
      }
    }
    assert showArrow ==> children[0].Arrow?;
    var popper := Popper(modifiers, placement, if showArrow then WithArrow else PlainContent, children);
    match MountPoint(BoundaryOf(modifiers), targetRef, host)
    case None => Inline(popper)
    case Some(node) => Portal(node, popper)
  }

  /** Without a truthy appendTo, or under appendToParent, the popper is rendered inline. */
  lemma InlineWithoutBoundary(
    props: PopoverProps, content: Option<Subtree>, targetRef: Option<DomNode>, host: Host)
    requires props.appendToParent || props.appendTo.None? || !Truthy(props.appendTo.value)
    ensures var m := CreateModifiers(props.moveBy, props.appendToParent, props.appendTo, host.isTestEnv);
      RenderPopper(m, props.placement, props.showArrow, props.moveArrowTo, content, targetRef, host).Inline?
  {
  }

  /** `appendTo` of `window` or `viewport` portals the popper into the document body. */
  lemma BodyForViewportOrWindow(
    props: PopoverProps, content: Option<Subtree>, targetRef: Option<DomNode>, host: Host)
    requires !props.appendToParent
    requires props.appendTo == Some(Named("viewport")) || props.appendTo == Some(Named("window"))
    ensures var m := CreateModifiers(props.moveBy, props.appendToParent, props.appendTo, host.isTestEnv);
      var t := RenderPopper(m, props.placement, props.showArrow, props.moveArrowTo, content, targetRef, host);
      t.Portal? && t.node == host.body
  {
  }

  /** An arrow on a `top` popover moved by 10 is styled `left: 10px`. */
  lemma ArrowOnTopMovedByTen(
    props: PopoverProps, content: Option<Subtree>, targetRef: Option<DomNode>, host: Host)
    requires props.showArrow && props.placement == Placement(Top, Centered) && props.moveArrowTo == Some(10)
    ensures var m := CreateModifiers(props.moveBy, props.appendToParent, props.appendTo, host.isTestEnv);
      var t := RenderPopper(m, props.placement, props.showArrow, props.moveArrowTo, content, targetRef, host);
      t.popper.children[0] == Arrow(map["left" := "10px"])
  {
    assert PxText(10) == "10px";
    assert PlacementName(props.placement) == "top";
    assert ArrowShift(props.moveArrowTo, "top", host.isTestEnv) == map["left" := "10px"];
  }
}
