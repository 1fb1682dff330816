# Popover decision layer, modelled in Dafny

This project models the logic of the wix-ui-core `Popover` component
(`packages/wix-ui-core/src/baseComponents/Popover/Popover.tsx`). The component
builds popper.js modifiers from its props. It decides where the floating
content is mounted: in a Portal into the document body, into the anchor's scroll
parent or into a given element, or inline. It decides what the popper element
holds (an arrow shifted by `moveArrowTo`, then the Content slot), and whether
the floating content is rendered. If it is, it renders either inside a
CSSTransition or directly, gated on the one-shot `isMounted` state.

Modules, one per concern of the component:

- `Options`: the optional-value datatype. `None` is an absent (`undefined`) prop.
- `JsText`: the text a template literal gives an integral number (`${n}`), and
  parsers that read `${n}px` and `${x}px, ${y}px` back. The parsers are the
  inverses of the two string-producing helpers.
- `PopoverTypes`: props, host environment, modifiers and the rendered element
  tree, all as plain datatypes.
- `PopoverModifiers`: `getArrowShift` and `createModifiers`.
- `PopoverRender`: the boundary-to-mount-point resolution and `renderPopper`.
- `PopoverComponent`: the `Popover` class, with its fields `isMounted` and
  `targetRef`, its lifecycle methods and `Render`. It also holds the React
  first-mount sequence as a client method.

Environment inputs are parameters. The module-level `process.env.NODE_ENV ===
'test'` becomes `Host.isTestEnv`. `document.body` becomes `Host.body`. popper.js's
`getScrollParent` becomes the function `Host.getScrollParent`, about which
nothing is assumed. lodash's `isElement` becomes the `isElement` tag of a
`DomNode`.

Only the exact placement strings `top` and `bottom` shift the arrow along
`left`. `top-start`, `bottom-end` and every other placement shift it along
`top` (`ArrowAxisByPlacement`).

## Model

| member | source | states |
|---|---|---|
| `JsText.NumberText` | packages/wix-ui-core/src/baseComponents/Popover/Popover.tsx:84 | the text of an integer is JavaScript's canonical form: a leading `-` exactly for negatives, then decimal digits with no leading zero (`0` alone for zero); it reads back as exactly that integer |
| `JsText.NatTextValue` | packages/wix-ui-core/src/baseComponents/Popover/Popover.tsx:84 | the decimal digits printed for a natural number have that number as their value |
| `JsText.PxRoundTrip` | packages/wix-ui-core/src/baseComponents/Popover/Popover.tsx:77 | `${n}px` reads back as the CSS length n |
| `JsText.OffsetRoundTrip` | packages/wix-ui-core/src/baseComponents/Popover/Popover.tsx:84 | the offset text `${x}px, ${y}px` is unambiguous: it reads back as exactly (x, y) |
| `PopoverModifiers.ShiftTextReadsBack` | packages/wix-ui-core/src/baseComponents/Popover/Popover.tsx:77 | a present arrow shift is rendered as a length that reads back as that shift |
| `PopoverModifiers.ArrowShift` | packages/wix-ui-core/src/baseComponents/Popover/Popover.tsx:71-79 | the style is empty iff the shift is falsy (absent or 0) outside test mode; otherwise it has exactly one entry: `left` iff the placement string is exactly `top` or `bottom`, and `top` otherwise, never both; the entry's value is exactly `${shift}px` and reads back as the shift, or is `undefinedpx` for an absent shift in test mode |
| `PopoverModifiers.ArrowAxisByPlacement` | packages/wix-ui-core/src/baseComponents/Popover/Popover.tsx:77 | over all fifteen popper.js placements, a shifted arrow uses `left` iff the placement is `top` or `bottom` with no `-start`/`-end`, and `top` for every other placement |
| `PopoverModifiers.CreateModifiers` | packages/wix-ui-core/src/baseComponents/Popover/Popover.tsx:81-100 | the offset is always present, is `${x}px, ${y}px` of moveBy (0, 0 when unset) and reads back as that pair; `preventOverflow` is present iff appendToParent is falsy and appendTo truthy, and then is bounded by appendTo itself; `computeStyle` is present iff in test mode, and is then disabled; the record has no other modifiers |
| `PopoverRender.MountPoint` | packages/wix-ui-core/src/baseComponents/Popover/Popover.tsx:103-112 | no boundary gives no mount point; `window`/`viewport` give the body; `scrollParent` gives the scroll parent of the target ref; a node gives itself iff it is an element, else none; any other name gives none |
| `PopoverRender.RenderPopper` | packages/wix-ui-core/src/baseComponents/Popover/Popover.tsx:102-149 | the popper carries the given modifiers and placement; it is Portal-wrapped iff a mount point resolves, and into that node; its children are exactly the Arrow, styled by the arrow shift of moveArrowTo and the placement, followed by the Content inside the wrapper div when showArrow is set, and the bare Content alone otherwise; the arrow look is chosen iff showArrow; the Content slot is rendered exactly once |
| `PopoverRender.InlineWithoutBoundary` | packages/wix-ui-core/src/baseComponents/Popover/Popover.tsx:92-112 | with appendToParent set or appendTo unset or falsy, the popper built from the derived modifiers is never portalled |
| `PopoverRender.BodyForViewportOrWindow` | packages/wix-ui-core/src/baseComponents/Popover/Popover.tsx:92-107 | appendTo `viewport` or `window` without appendToParent portals the popper into the document body |
| `PopoverRender.ArrowOnTopMovedByTen` | packages/wix-ui-core/src/baseComponents/Popover/Popover.tsx:120-126 | with showArrow, placement `top` and moveArrowTo 10, the arrow's style is exactly `{left: "10px"}` |
| `PopoverComponent.Popover.constructor` | packages/wix-ui-core/src/baseComponents/Popover/Popover.tsx:161-169 | a new popover is not mounted and has no target ref |
| `PopoverComponent.Popover.AttachTarget` | packages/wix-ui-core/src/baseComponents/Popover/Popover.tsx:204 | the ref callback stores the node it is given and leaves isMounted alone |
| `PopoverComponent.Popover.ComponentDidMount` | packages/wix-ui-core/src/baseComponents/Popover/Popover.tsx:171-173 | after componentDidMount the popover is mounted, and the target ref is unchanged |
| `PopoverComponent.Popover.Render` | packages/wix-ui-core/src/baseComponents/Popover/Popover.tsx:175-220 | the anchor slot is always rendered; nothing floats while unmounted; a transition appears iff mounted with a truthy timeout (the prop, or 150 by default), with `in` equal to shown, that timeout, unmount-on-exit, and the popper; a direct popper appears iff mounted, the timeout is falsy and shown; never both |
| `PopoverComponent.RequestedIffMountedAndShown` | packages/wix-ui-core/src/baseComponents/Popover/Popover.tsx:208-217 | whatever the timeout, the floating content is present or entering iff the popover is mounted and shown |
| `PopoverComponent.DefaultTimeoutAnimates` | packages/wix-ui-core/src/baseComponents/Popover/Popover.tsx:157-159 | without a timeout prop a mounted popover always renders the transition, with timeout 150 and `in` equal to shown, and no direct popper |
| `PopoverComponent.DelaysIgnored` | packages/wix-ui-core/src/baseComponents/Popover/Popover.tsx:176-190 | changing hideDelay or showDelay changes nothing in the rendered output |
| `PopoverComponent.FirstMount` | packages/wix-ui-core/src/baseComponents/Popover/Popover.tsx:161-217 | over React's first mount, the first render floats nothing; the render after componentDidMount requests the content iff shown, animates iff the timeout is truthy, and builds the popper against the attached anchor |
| `PopoverComponent.ViewportImmediatePortal` | packages/wix-ui-core/src/baseComponents/Popover/Popover.tsx:214-217 | mounted, shown, timeout 0 and appendTo `viewport`: the popper is rendered directly, portalled into the body |
| `PopoverComponent.NoAppendToInline` | packages/wix-ui-core/src/baseComponents/Popover/Popover.tsx:208-217 | mounted and shown with neither appendTo nor appendToParent: whichever branch renders, the popper is inline |

## Left out

- Numbers are integers. JavaScript's NaN, infinities, fractions, `-0` and the exponent form of very large numbers are not modelled. With them, `${n}` and the truthiness of a shift or timeout would have more cases.
- The `document.createRange` polyfill run in test mode (Popover.tsx:12-22) is a DOM environment fix, not part of the component's decisions.
- Positioning by popper.js and react-popper (`Manager`, `Target`, `Popper`, `Arrow`) is an external library. Only the props the component passes them are modelled.
- `getScrollParent` and lodash `isElement` are foreign calls. The first is an arbitrary function in `Host`. The second is a tag on `DomNode`.
- CSSTransition's timing and its enter/exit sequencing are an asynchronous external driver. Only its `in`, `timeout` and `unmountOnExit` props are modelled.
- Portal relocation into the DOM is left out. The model records only the node a Portal is given.
- `buildChildrenObject` is not part of this model. Its handling of duplicate slots is unknown, so the extracted Element and Content slots are inputs (`ChildSlots`).
- The CSS class names from `Popover.st.css` are left out, except for the choice between the arrow and plain-content looks. The `data-hook` test attributes (`popover-content`, `popover-arrow`, `popover-element`) are constants and are left out too.
- Explicit `null` props are not modelled; `None` is always an absent (`undefined`) prop. JavaScript treats the two differently in two places here. React applies `defaultProps` only for `undefined`, so `timeout={null}` is falsy and renders the popper directly, where `None` gets the 150 default. In test mode, `moveArrowTo={null}` prints `nullpx`, where `None` prints `undefinedpx`.
- Event handlers (`onClick`, `onMouseEnter`, `onMouseLeave`, `onKeyDown`) are passed through unchanged and are left out.
- The prop-types declarations and the static `Element`/`Content` slot markers are left out.
- `setState` is asynchronous. `ComponentDidMount` models the state after the update has been applied.
- React re-renders on its own schedule. `Render` is a function of the props and the two fields, so rendering twice with the same inputs gives the same output. Because this holds by construction, no separate lemma states it.
