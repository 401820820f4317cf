/** The placement rule of the `DevTooltip` component (src/DevTooltip.jsx): while the
    wrapper is hovered, an effect measures the wrapper, the tooltip and the viewport and
    chooses whether the tooltip hangs from the wrapper's left side, flips to its right
    side, or is pinned 5px in. The DOM measurements are inputs; pixel values are reals,
    since only comparison, addition and subtraction are involved. */
module DevTooltip {
  import opened Text

  /** The parts of the wrapper's bounding rectangle the effect reads. */
  datatype Rect = Rect(left: real, right: real, height: real)

  /** Everything the effect measures: the wrapper, the tooltip's width and `window.innerWidth`. */
  datatype Measurements = Measurements(wrapper: Rect, tooltipWidth: real, viewportWidth: real)

  /** A CSS offset: `auto` or a length in pixels. */
  datatype Offset = Auto | Px(px: real)

  /** The inline style object; a key the object does not carry is None. */
  datatype Style = Style(opacity: nat, top: Option<real>, left: Option<Offset>, right: Option<Offset>)

  /** What the component renders: its children alone, or the wrapper holding the children and the tooltip. */
  datatype View<C> = Fragment(children: C) | Wrapper(children: C, tooltipStyle: Style, note: string)

  /** The margin, in pixels, kept from the viewport's edges and between wrapper and tooltip. */
  const Margin: real := 5.0

  /** `{opacity: 0}`. */
  const HiddenStyle := Style(0, None, None, None)

  /** The tooltip, left-aligned with the wrapper, would end within 5px of the viewport's right edge or beyond. */
  predicate OverflowsRight(m: Measurements)
  {
    m.wrapper.left + m.tooltipWidth > m.viewportWidth - Margin
  }

  /** The left edge the tooltip would have after the possible flip: the wrapper's right side minus
      the tooltip's width when flipped, the wrapper's left side otherwise. */
  function CandidateLeftEdge(m: Measurements): (edge: real)
    ensures OverflowsRight(m) ==> edge == m.wrapper.right - m.tooltipWidth
    ensures !OverflowsRight(m) ==> edge == m.wrapper.left
  {
    if OverflowsRight(m) then m.wrapper.right - m.tooltipWidth else m.wrapper.left
  }

  /** Exactly one of `left` and `right` is a length and the other is `auto`. */
  predicate OneSideAnchored(s: Style)
  {
    s.left.Some? && s.right.Some? && (s.left.value.Px? <==> s.right.value.Auto?)
  }

  /** The style of a visible tooltip, as a three-way decision: pinned 5px in when the candidate left
      edge is within the margin, otherwise flipped when it overflows on the right, otherwise left-aligned. */
  function Placement(m: Measurements): (s: Style)
    ensures s.opacity == 1 && s.top == Some(m.wrapper.height + 5.0)
    ensures OneSideAnchored(s)
  {
    var top := Some(m.wrapper.height + Margin);
    if CandidateLeftEdge(m) < Margin then Style(1, top, Some(Px(Margin)), Some(Auto))
    else if OverflowsRight(m) then Style(1, top, Some(Auto), Some(Px(0.0)))
    else Style(1, top, Some(Px(0.0)), Some(Auto))
  }

  /** The effect's computation as written: a default style whose `left` and `right` are overwritten
      in turn by the flip and by the left-edge check. */
  method ComputeStyle(m: Measurements) returns (style: Style)
    ensures style == Placement(m)
  {
    style := Style(1, Some(m.wrapper.height + Margin), Some(Px(0.0)), Some(Auto));
    var potentialRightEdge := m.wrapper.left + m.tooltipWidth;
    if potentialRightEdge > m.viewportWidth - Margin {
      style := style.(left := Some(Auto), right := Some(Px(0.0)));
    }
    var finalLeftEdge: real;
    if style.left == Some(Auto) && style.right == Some(Px(0.0)) {
      finalLeftEdge := m.wrapper.right - m.tooltipWidth;
    } else {
      finalLeftEdge := m.wrapper.left;
    }
    if finalLeftEdge < Margin {
      style := style.(left := Some(Px(Margin)), right := Some(Auto));
    }
  }

  /** Which of the three placements is chosen, in terms of the measurements. */
  lemma PlacementCases(m: Measurements)
    ensures var s := Placement(m);
            var w := m.wrapper;
            (s.left == Some(Px(0.0)) && s.right == Some(Auto) <==>
               w.left + m.tooltipWidth <= m.viewportWidth - 5.0 && w.left >= 5.0) &&
            (s.left == Some(Auto) && s.right == Some(Px(0.0)) <==>
               w.left + m.tooltipWidth > m.viewportWidth - 5.0 && w.right - m.tooltipWidth >= 5.0) &&
            (s.left == Some(Px(5.0)) && s.right == Some(Auto) <==>
               (w.left + m.tooltipWidth > m.viewportWidth - 5.0 && w.right - m.tooltipWidth < 5.0) ||
               (w.left + m.tooltipWidth <= m.viewportWidth - 5.0 && w.left < 5.0))
  {
  }

  /** Unless pinned, the tooltip's left edge keeps the margin from the viewport's left edge, and when
      left-aligned its right edge keeps the margin from the viewport's right edge. */
  lemma UnpinnedKeepsMargins(m: Measurements)
    ensures var s := Placement(m);
            s.left != Some(Px(Margin)) ==> CandidateLeftEdge(m) >= 5.0
    ensures var s := Placement(m);
            s.left == Some(Px(0.0)) ==> m.wrapper.left >= 5.0 && m.wrapper.left + m.tooltipWidth <= m.viewportWidth - 5.0
  {
  }

  /** The style the component can hold: hidden, or a complete visible placement. */
  predicate StyleShape(s: Style)
  {
    s == HiddenStyle || (s.opacity == 1 && s.top.Some? && OneSideAnchored(s))
  }

  /** The component's state: the `note` prop, and the `isVisible` and `tooltipStyle` state hooks. */
  class Tooltip {
    const note: Option<string>
    var isVisible: bool
    var tooltipStyle: Style

    ghost predicate Valid()
      reads this
    {
      StyleShape(tooltipStyle)
    }

    /** The first render: hidden, with style `{opacity: 0}`. */
    constructor (note: Option<string>)
      ensures Valid()
      ensures this.note == note && !isVisible && tooltipStyle == HiddenStyle
    {
      this.note := note;
      isVisible := false;
      tooltipStyle := HiddenStyle;
    }

    /** `onMouseEnter`. */
    method MouseEnter()
      requires Valid()
      modifies this`isVisible
      ensures Valid() && isVisible
    {
      isVisible := true;
    }

    /** `onMouseLeave`. */
    method MouseLeave()
      requires Valid()
      modifies this`isVisible
      ensures Valid() && !isVisible
    {
      isVisible := false;
    }

    /** One run of the effect; `measured` is None when either ref is not attached. */
    method RunEffect(measured: Option<Measurements>)
      requires Valid()
      modifies this`tooltipStyle
      ensures Valid()
      ensures !isVisible ==> tooltipStyle == HiddenStyle
      ensures isVisible && measured.Some? ==> tooltipStyle == Placement(measured.value)
      ensures isVisible && measured.None? ==> tooltipStyle == old(tooltipStyle)
    {
      if isVisible && measured.Some? {
        tooltipStyle := ComputeStyle(measured.value);
      } else if !isVisible {
        tooltipStyle := HiddenStyle;
      }
    }

    /** What the component renders around `children`. */
    function Render<C>(children: C): (v: View<C>)
      reads this
      ensures !Present(note) ==> v == Fragment(children)
      ensures Present(note) ==> v.Wrapper? && v.children == children && v.tooltipStyle == tooltipStyle && v.note == note.value
    {
      if !Present(note) then Fragment(children) else Wrapper(children, tooltipStyle, note.value)
    }
  }
}
