/**
 * The two pure helpers of the Popover: the arrow's style shift and the
 * popper.js modifiers derived from the props.
 */
module PopoverModifiers {
  import opened Options
  import opened JsText
  import opened PopoverTypes

  /** `${shift}px`: an absent shift interpolates as the word `undefined`. */
  function ShiftText(shift: Option<int>): string {
    match shift
    case None => "undefined" + "px"
    case Some(n) => PxText(n)
  }

  lemma ShiftTextReadsBack(shift: Option<int>)
    ensures shift.Some? ==> ParsePx(ShiftText(shift)) == Some(shift.value)
  {
  }

  /** The style property the arrow is shifted along for a placement string. */
  function ArrowShiftKey(direction: string): string {
    if direction == "top" || direction == "bottom" then "left" else "top"
  }

  /**
   * getArrowShift: no style when the shift is falsy outside test mode;
   * otherwise one entry, `left` for exactly `top`/`bottom` and `top` for
   * every other placement string, whose value is `${shift}px` and reads
   * back as the shift.
   */
  function ArrowShift(shift: Option<int>, direction: string, isTestEnv: bool): (style: Style)
    ensures style == map[] <==> !NumberTruthy(shift) && !isTestEnv
    ensures |style| <= 1
    ensures "left" in style <==> style != map[] && (direction == "top" || direction == "bottom")
    ensures "top" in style <==> style != map[] && direction != "top" && direction != "bottom"
    ensures shift.Some? ==> forall k | k in style :: style[k] == PxText(shift.value)
    ensures shift.Some? ==> forall k | k in style :: ParsePx(style[k]) == Some(shift.value)
    ensures shift.None? ==> forall k | k in style :: style[k] == "undefinedpx"
  {
    if !NumberTruthy(shift) && !isTestEnv then
      map[]
    else
      ShiftTextReadsBack(shift);
      assert map[ArrowShiftKey(direction) := ShiftText(shift)].Keys == {ArrowShiftKey(direction)};
      map[ArrowShiftKey(direction) := ShiftText(shift)]
  }

  /** The arrow is shifted along `left` only for the two exact placements `top` and `bottom`. */
  lemma ArrowAxisByPlacement(shift: Option<int>, p: Placement, isTestEnv: bool)
    requires NumberTruthy(shift) || isTestEnv
    ensures var style := ArrowShift(shift, PlacementName(p), isTestEnv);
      ("left" in style <==> p.variation == Centered && (p.edge == Top || p.edge == Bottom)) &&
      ("top" in style <==> !("left" in style))
  {
  }

  /** The offset components: those of `moveBy`, or 0 and 0 when it is absent. */
  function MoveByOrOrigin(moveBy: Option<Point>): (int, int) {
    match moveBy
    case None => (0, 0)
    case Some(p) => (p.x, p.y)
  }

  /** The boundary `createModifiers` passes on: none under `appendToParent`, else a truthy `appendTo`. */
  function BoundaryTarget(appendToParent: bool, appendTo: Option<AppendTo>): Option<AppendTo> {
    if appendToParent then None
    else if appendTo.Some? && Truthy(appendTo.value) then appendTo
    else None
  }

  /**
   * createModifiers: an offset `${x}px, ${y}px` that reads back as moveBy
   * (or 0, 0); `preventOverflow` exactly when appendToParent is falsy and
   * appendTo truthy, bounded by appendTo itself; `computeStyle` disabled
   * exactly in test mode.
   */
  function CreateModifiers(moveBy: Option<Point>, appendToParent: bool, appendTo: Option<AppendTo>, isTestEnv: bool): (m: Modifiers)
    ensures var (x, y) := MoveByOrOrigin(moveBy);
      m.offset.offset == PxText(x) + ", " + PxText(y) && ParseOffset(m.offset.offset) == Some((x, y))
    ensures m.preventOverflow.Some? <==> !appendToParent && appendTo.Some? && Truthy(appendTo.value)
    ensures m.preventOverflow.Some? ==> m.preventOverflow.value.boundariesElement == appendTo.value
    ensures m.computeStyle.Some? <==> isTestEnv
    ensures m.computeStyle.Some? ==> !m.computeStyle.value.enabled
  {
    var (x, y) := MoveByOrOrigin(moveBy);
    OffsetRoundTrip(x, y);
    var target := BoundaryTarget(appendToParent, appendTo);
    Modifiers(
      OffsetModifier(OffsetText(x, y)),
      if isTestEnv then Some(ComputeStyle(false)) else None,
      if target.Some? then Some(PreventOverflow(target.value)) else None)
  }
}
