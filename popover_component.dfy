/**
 * The Popover component: its one piece of state (`isMounted`), the anchor
 * ref the Target's div assigns, and the render decision between an
 * animated popper, an immediate popper and none.
 */
module PopoverComponent {
  import opened Options
  import opened PopoverTypes
  import opened PopoverModifiers
  import opened PopoverRender

  /** `Popover.defaultProps.timeout`. */
  const DefaultTimeout: int := 150

  /** The timeout React passes after applying the default props: a given value wins. */
  function EffectiveTimeout(timeout: Option<int>): int {
    match timeout
    case None => DefaultTimeout
    case Some(t) => t
  }

  /** The popper as both branches of the render build it. */
  function FloatingPopper(props: PopoverProps, children: ChildSlots, targetRef: Option<DomNode>, host: Host): PopperTree {
    var modifiers := CreateModifiers(props.moveBy, props.appendToParent, props.appendTo, host.isTestEnv);
    RenderPopper(modifiers, props.placement, props.showArrow, props.moveArrowTo, children.content, targetRef, host)
  }

  class Popover {
    /** `state.isMounted`. */
    var isMounted: bool
    /** `targetRef`: the div around the Element slot, once React has attached it. */
    var targetRef: Option<DomNode>

    constructor ()
      ensures !isMounted && targetRef.None?
    {
      isMounted := false;
      targetRef := None;
    }

    /** The ref callback `r => this.targetRef = r`. */
    method AttachTarget(r: Option<DomNode>)
      modifies this
      ensures targetRef == r && isMounted == old(isMounted)
    {
      targetRef := r;
    }

    /** componentDidMount, once its `setState({isMounted: true})` has been applied. */
    method ComponentDidMount()
      modifies this
      ensures isMounted && targetRef == old(targetRef)
    {
      isMounted := true;
    }

    /**
     * render: the anchor always; once mounted, with a truthy timeout a
     * CSSTransition whose `in` is `shown`, with a falsy one the popper
     * exactly when shown; before mounting no floating content at all.
     */
    function Render(props: PopoverProps, children: ChildSlots, host: Host): (out: Rendered)
      reads this
      ensures out.target.anchor == children.element
      ensures !isMounted ==> out.animated.None? && out.immediate.None?
      ensures out.animated.Some? <==> isMounted && EffectiveTimeout(props.timeout) != 0
      ensures out.immediate.Some? <==> isMounted && EffectiveTimeout(props.timeout) == 0 && props.shown
      ensures !(out.animated.Some? && out.immediate.Some?)
      ensures out.animated.Some? ==>
        out.animated.value.isIn == props.shown &&
        out.animated.value.timeout == EffectiveTimeout(props.timeout) &&
        out.animated.value.unmountOnExit &&
        out.animated.value.child == FloatingPopper(props, children, targetRef, host)
      ensures out.immediate.Some? ==> out.immediate.value == FloatingPopper(props, children, targetRef, host)
    {
      var timeout := EffectiveTimeout(props.timeout);
      var popper := FloatingPopper(props, children, targetRef, host);
      Manager(
        Target(children.element),
        if timeout != 0 && isMounted then Some(CSSTransition(props.shown, timeout, true, popper)) else None,
        if timeout == 0 && props.shown && isMounted then Some(popper) else None)
    }
  }

  /** The floating content is present or entering. */
  predicate FloatingRequested(out: Rendered) {
    out.immediate.Some? || (out.animated.Some? && out.animated.value.isIn)
  }

  /** Whatever the timeout, the floating content is requested exactly when mounted and shown. */
  lemma RequestedIffMountedAndShown(p: Popover, props: PopoverProps, children: ChildSlots, host: Host)
    ensures FloatingRequested(p.Render(props, children, host)) <==> p.isMounted && props.shown
  {
  }

  /** Without a timeout prop, a mounted popover animates over 150 ms, whether shown or not. */
  lemma DefaultTimeoutAnimates(p: Popover, props: PopoverProps, children: ChildSlots, host: Host)
    requires p.isMounted && props.timeout.None?
    ensures var out := p.Render(props, children, host);
      out.immediate.None? && out.animated.Some? &&
      out.animated.value.timeout == 150 && out.animated.value.isIn == props.shown
  {
  }

  /** The delay props are accepted but change nothing in the output. */
  lemma DelaysIgnored(p: Popover, props: PopoverProps, children: ChildSlots, host: Host, hideDelay: Option<int>, showDelay: Option<int>)
    ensures p.Render(props.(hideDelay := hideDelay, showDelay := showDelay), children, host) == p.Render(props, children, host)
  {
  }

  /**
   * React's first mount: construct, render, attach the anchor ref, run
   * componentDidMount, render again. The first output has no floating
   * content; the second shows it as the props ask, measured against the
   * attached anchor.
   */
  method FirstMount(props: PopoverProps, children: ChildSlots, host: Host, anchor: DomNode)
    returns (initial: Rendered, settled: Rendered)
    ensures initial == Manager(Target(children.element), None, None)
    ensures settled.target.anchor == children.element
    ensures FloatingRequested(settled) <==> props.shown
    ensures settled.animated.Some? <==> EffectiveTimeout(props.timeout) != 0
    ensures settled.animated.Some? ==> settled.animated.value.child == FloatingPopper(props, children, Some(anchor), host)
    ensures settled.immediate.Some? ==> settled.immediate.value == FloatingPopper(props, children, Some(anchor), host)
  {
    var popover := new Popover();
    initial := popover.Render(props, children, host);
    popover.AttachTarget(Some(anchor));
    popover.ComponentDidMount();
    settled := popover.Render(props, children, host);
    RequestedIffMountedAndShown(popover, props, children, host);
  }

  /** `appendTo="viewport"`, mounted, shown, `timeout={0}`: the popper is portalled into the body. */
  lemma ViewportImmediatePortal(p: Popover, props: PopoverProps, children: ChildSlots, host: Host)
    requires p.isMounted && props.shown && props.timeout == Some(0)
    requires props.appendTo == Some(Named("viewport")) && !props.appendToParent
    ensures var out := p.Render(props, children, host);
      out.immediate.Some? && out.immediate.value.Portal? && out.immediate.value.node == host.body
  {
  }

  /** No appendTo and no appendToParent, mounted and shown: the popper stays inline. */
  lemma NoAppendToInline(p: Popover, props: PopoverProps, children: ChildSlots, host: Host)
    requires p.isMounted && props.shown
    requires props.appendTo.None? && !props.appendToParent
    ensures var out := p.Render(props, children, host);
      (out.immediate.Some? ==> out.immediate.value.Inline?) &&
      (out.animated.Some? ==> out.animated.value.child.Inline?)
  {
  }
}
