/**
 * The container element that `createTube` in src/main.ts rebuilds in place:
 * its child list and its inline style properties. Panels are appended as
 * values, fully built; the element's other attributes are not modelled.
 */
module TubeDom {
  import opened Wrappers
  import opened NumberText
  import opened Tube

  /** A value of an inline style property: plain text, or a side width whose number is left symbolic. */
  datatype StyleValue = Text(text: string) | Width(width: SideWidth)

  const WidthProperty := "--width"
  const NumberOfSidesProperty := "--number-of-sides"

  /** The container element: its children in document order and its inline style. */
  class Container {
    var children: seq<Panel>
    var style: map<string, StyleValue>

    constructor (initialChildren: seq<Panel>, initialStyle: map<string, StyleValue>)
      ensures children == initialChildren && style == initialStyle
    {
      children := initialChildren;
      style := initialStyle;
    }

    /** `innerHTML = ""`: every child goes, the style stays. */
    method ClearChildren()
      modifies this
      ensures children == [] && style == old(style)
    {
      children := [];
    }

    /** `style.setProperty(name, value)`: sets one property and leaves the others and the children alone. */
    method SetProperty(name: string, value: StyleValue)
      modifies this
      ensures style == old(style)[name := value] && children == old(children)
    {
      style := style[name := value];
    }

    /** `appendChild(panel)`: the panel becomes the last child. */
    method AppendChild(panel: Panel)
      modifies this
      ensures children == old(children) + [panel] && style == old(style)
    {
      children := children + [panel];
    }
  }

  /** The style `createTube` leaves: the apothem-based side width and the side count, set once on the container. */
  function TubeStyle(style: map<string, StyleValue>, sides: int, radius: real): map<string, StyleValue> {
    style[WidthProperty := Width(Tangent(sides, radius))][NumberOfSidesProperty := Text(IntToString(sides))]
  }

  /** The container carries the width and the side count, whose text reads back as `sides`; no other property changes. */
  lemma TubeStyleProperties(style: map<string, StyleValue>, sides: int, radius: real)
    ensures var after := TubeStyle(style, sides, radius);
      && WidthProperty in after && after[WidthProperty] == Width(Tangent(sides, radius))
      && NumberOfSidesProperty in after && after[NumberOfSidesProperty].Text?
      && IsIntegerText(after[NumberOfSidesProperty].text)
      && ParseInteger(after[NumberOfSidesProperty].text) == sides
      && forall name :: name != WidthProperty && name != NumberOfSidesProperty ==>
           (name in after <==> name in style) && (name in style ==> after[name] == style[name])
  {
    assert WidthProperty != NumberOfSidesProperty by {
      assert |WidthProperty| != |NumberOfSidesProperty|;
    }
    ParseIntToString(sides);
  }

  /**
   * Rebuilds `container` as a tube of `sides` sides and `numberOfSegments`
   * panels per side, `radius` being the apothem. There is no check on
   * `sides`: fewer than three sides still produce panels.
   */
  method CreateTube(container: Container, sides: int := 12, numberOfSegments: int := 3, radius: real := 50.0)
    modifies container
    ensures container.children == TubePanels(sides, numberOfSegments)
    ensures container.style == TubeStyle(old(container.style), sides, radius)
  {
    container.ClearChildren();

    var sideWidth := Tangent(sides, radius);
    container.SetProperty(WidthProperty, Width(sideWidth));
    container.SetProperty(NumberOfSidesProperty, Text(IntToString(sides)));
    ghost var style := container.style;
    ghost var segments := SegmentCount(numberOfSegments);

    var i := 0;
    while i < sides
      invariant 0 <= i && (i <= sides || i == 0)
      invariant container.children == TubePrefix(sides, segments, i)
      invariant container.style == style
    {
      var angleDeg := Degrees(i * 360, sides);
      var segmentNumber := 0;
      ghost var prefix := container.children;
      while segmentNumber < numberOfSegments
        invariant 0 <= segmentNumber <= segments
        invariant container.children == prefix + SidePanels(sides, i, segmentNumber)
        invariant container.style == style
      {
        var text := if segmentNumber == 0 then Some("\n" + NatToString(i + 1)) else None;
        var div := Panel(SideClass, angleDeg, NatToString(i), NatToString(segmentNumber), text);
        assert div == SidePanel(sides, i, segmentNumber);
        AppendSidePanel(prefix, sides, i, segmentNumber);
        container.AppendChild(div);
        segmentNumber := segmentNumber + 1;
      }
      assert TubePrefix(sides, segments, i + 1) == prefix + SidePanels(sides, i, segments);
      i := i + 1;
    }
    assert TubePanels(sides, numberOfSegments) == TubePrefix(sides, segments, i);
  }

  /**
   * What a caller of `CreateTube` learns from its contract alone: the old
   * children are gone, there are sides * numberOfSegments panels, and
   * panel k belongs to side k / numberOfSegments.
   */
  method CreateTubeReplacesChildren(container: Container, sides: int, numberOfSegments: int, k: int)
    requires 0 <= k < sides * numberOfSegments && numberOfSegments > 0
    modifies container
    ensures |container.children| == sides * numberOfSegments
    ensures container.children[k].n == NatToString(k / numberOfSegments)
    ensures container.children[k].segment == NatToString(k % numberOfSegments)
    ensures WidthProperty in container.style && container.style[WidthProperty] == Width(Tangent(sides, 50.0))
    ensures container.children == TubePanels(sides, numberOfSegments)
  {
    CreateTube(container, sides, numberOfSegments);
    TubeLength(sides, numberOfSegments);
    TubePanelFields(sides, numberOfSegments, k);
  }
}
