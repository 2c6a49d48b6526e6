/**
 * The geometry of the faceted tube in src/main.ts: the side-width guard, and
 * the panels that `createTube` writes into its container, as values.
 *
 * A panel of side `i` (0 <= i < sides) and segment `s` (0 <= s < segments)
 * is rotated by i*360/sides degrees around the tube axis, carries the
 * decimal text of `i` as its `--n` property and of `s` as its `segment`
 * data attribute, and, on segment 0 only, the label "\n" followed by the
 * decimal text of i+1. The panels of one side come consecutively, in
 * segment order, and the sides come in index order.
 */
module Tube {
  import opened Wrappers
  import opened NumberText

  /**
   * The width of one side of a regular `sides`-gon, kept symbolic: the
   * numeric value is floating-point trigonometry, printed with six decimals
   * and the unit "vmin".
   *   Chord(n, r):   2 * r * sin(pi / n), the side when r is the circumradius
   *   Tangent(n, r): 2 * r * tan(pi / n), the side when r is the apothem
   */
  datatype SideWidth =
    | Chord(sides: int, radius: real)
    | Tangent(sides: int, radius: real)

  /** The error `computeTubeSideWidth` throws. */
  datatype WidthError = SidesBelowThree

  /** Width of one side of a tube with the given circumradius; a tube needs at least three sides. */
  function ComputeTubeSideWidth(sides: int, radius: real := 50.0): (r: Result<SideWidth, WidthError>)
    ensures r.Failure? <==> sides < 3
    ensures r.Failure? ==> r.error == SidesBelowThree
    ensures r.Success? ==> r.value.Chord? && r.value.sides == sides && r.value.radius == radius
  {
    if sides < 3 then Failure(SidesBelowThree) else Success(Chord(sides, radius))
  }

  /** The class name every panel gets. */
  const SideClass := "tube-side"

  /**
   * A rotation in degrees, kept as the exact quotient numerator / denominator
   * (`createTube` divides `i * 360` by `sides` in floating point and prints
   * the quotient).
   */
  datatype Degrees = Degrees(numerator: int, denominator: int) {
    function Value(): real
      requires denominator != 0
    {
      numerator as real / denominator as real
    }
  }

  /**
   * One panel (a `div` of the container). `rotation` is the `--rotation`
   * property, `n` the `--n` property, `segment` the `segment` data
   * attribute and `text` the text content, absent when never set.
   */
  datatype Panel = Panel(className: string, rotation: Degrees, n: string, segment: string, text: Option<string>)

  /** Rotation of side `i` of a `sides`-gon: i * 360 / sides degrees. */
  function Rotation(i: int, sides: int): Degrees {
    Degrees(i * 360, sides)
  }

  /** The label on the first segment of side `i`. */
  function Label(i: nat): string {
    "\n" + NatToString(i + 1)
  }

  /** The panel of side `i`, segment `segment`. */
  function SidePanel(sides: int, i: nat, segment: nat): Panel {
    Panel(SideClass, Rotation(i, sides), NatToString(i), NatToString(segment),
          if segment == 0 then Some(Label(i)) else None)
  }

  /** The first `count` panels of side `i`, in segment order (the inner loop after `count` rounds). */
  function SidePanels(sides: int, i: nat, count: nat): seq<Panel> {
    if count == 0 then [] else SidePanels(sides, i, count - 1) + [SidePanel(sides, i, count - 1)]
  }

  /** One more inner-loop round appends the next segment's panel after any earlier panels. */
  lemma AppendSidePanel(prefix: seq<Panel>, sides: int, i: nat, count: nat)
    ensures prefix + SidePanels(sides, i, count) + [SidePanel(sides, i, count)] == prefix + SidePanels(sides, i, count + 1)
  {
  }

  /** How many times the inner loop runs: `segmentNumber < numberOfSegments` never holds for a non-positive count. */
  function SegmentCount(numberOfSegments: int): nat {
    if numberOfSegments < 0 then 0 else numberOfSegments
  }

  /** The panels of sides 0 .. count-1, `segments` each (the outer loop after `count` rounds). */
  function TubePrefix(sides: int, segments: nat, count: nat): seq<Panel> {
    if count == 0 then [] else TubePrefix(sides, segments, count - 1) + SidePanels(sides, count - 1, segments)
  }

  /** Everything `createTube(container, sides, numberOfSegments)` leaves in the container. */
  function TubePanels(sides: int, numberOfSegments: int): seq<Panel> {
    TubePrefix(sides, SegmentCount(numberOfSegments), if sides < 0 then 0 else sides)
  }

  /** The texts of those panels that have one, in order. */
  function Labels(panels: seq<Panel>): seq<string> {
    if panels == [] then []
    else
      Labels(panels[..|panels| - 1]) +
      (match panels[|panels| - 1].text
       case Some(t) => [t]
       case None => [])
  }

  // ---------------------------------------------------------------------
  // Rotations

  /** Side rotations start at 0 and are spaced by exactly 360/sides degrees. */
  lemma RotationSpacing(i: int, sides: int)
    requires sides > 0
    ensures Rotation(0, sides).Value() == 0.0
    ensures Rotation(i + 1, sides).Value() - Rotation(i, sides).Value() == 360.0 / sides as real
  {
  }

  /** Every side's rotation lies in [0, 360). */
  lemma RotationRange(i: int, sides: int)
    requires 0 <= i < sides
    ensures 0.0 <= Rotation(i, sides).Value() < 360.0
  {
    var s := sides as real;
    assert (i * 360) as real < 360.0 * s;
    assert Rotation(i, sides).Value() * s == (i * 360) as real;
  }

  /** Distinct sides have distinct rotations. */
  lemma RotationInjective(i: int, j: int, sides: int)
    requires sides > 0
    ensures Rotation(i, sides).Value() == Rotation(j, sides).Value() <==> i == j
  {
    var s := sides as real;
    assert Rotation(i, sides).Value() * s == (i * 360) as real;
    assert Rotation(j, sides).Value() * s == (j * 360) as real;
  }

  // ---------------------------------------------------------------------
  // Positions

  lemma {:induction false} SidePanelsLength(sides: int, i: nat, count: nat)
    ensures |SidePanels(sides, i, count)| == count
  {
    if count > 0 {
      SidePanelsLength(sides, i, count - 1);
    }
  }

  /** Position s of the inner loop's panels holds segment s. */
  lemma {:induction false} SidePanelAt(sides: int, i: nat, count: nat, s: nat)
    requires s < count
    ensures |SidePanels(sides, i, count)| == count
    ensures SidePanels(sides, i, count)[s] == SidePanel(sides, i, s)
  {
    SidePanelsLength(sides, i, count - 1);
    if s < count - 1 {
      SidePanelAt(sides, i, count - 1, s);
    }
  }

  lemma MulSucc(c: nat, m: nat)
    ensures (c + 1) * m == c * m + m
  {
  }

  lemma MulCancel(a: int, b: int, m: int)
    requires m > 0 && a * m < b * m
    ensures a < b
  {
  }

  /** A position k < count * m splits into block k / m < count and offset k % m < m. */
  lemma Decompose(k: int, m: int, count: nat)
    requires 0 <= k < count * m
    ensures m > 0 && 0 <= k / m < count && 0 <= k % m < m && k == (k / m) * m + k % m
  {
  }

  /** After `count` rounds the outer loop has appended `count * segments` panels. */
  lemma {:induction false} TubePrefixLength(sides: int, segments: nat, count: nat)
    ensures |TubePrefix(sides, segments, count)| == count * segments
  {
    if count > 0 {
      TubePrefixLength(sides, segments, count - 1);
      SidePanelsLength(sides, count - 1, segments);
      MulSucc(count - 1, segments);
    }
  }

  /** After `count` rounds of the outer loop, segment s of side i sits right after the panels of sides 0 .. i-1 and segments 0 .. s-1. */
  lemma {:induction false} TubePrefixAt(sides: int, segments: nat, count: nat, i: nat, s: nat)
    requires i < count && s < segments
    ensures |TubePrefix(sides, segments, i)| + s < |TubePrefix(sides, segments, count)|
    ensures TubePrefix(sides, segments, count)[|TubePrefix(sides, segments, i)| + s] == SidePanel(sides, i, s)
  {
    var c := count - 1;
    var before := TubePrefix(sides, segments, c);
    var last := SidePanels(sides, c, segments);
    SidePanelsLength(sides, c, segments);
    assert TubePrefix(sides, segments, count) == before + last;
    var j := |TubePrefix(sides, segments, i)| + s;
    if i < c {
      TubePrefixAt(sides, segments, c, i, s);
      assert (before + last)[j] == before[j];
    } else {
      SidePanelAt(sides, c, segments, s);
      assert (before + last)[j] == last[s];
    }
  }

  /** createTube appends sides * numberOfSegments panels when both are positive, and none otherwise; it does not need three sides. */
  lemma TubeLength(sides: int, numberOfSegments: int)
    ensures |TubePanels(sides, numberOfSegments)| ==
            if sides > 0 && numberOfSegments > 0 then sides * numberOfSegments else 0
  {
    TubePrefixLength(sides, SegmentCount(numberOfSegments), if sides < 0 then 0 else sides);
  }

  /** Every position of the tube belongs to one of its sides. */
  lemma TubePanelSide(sides: int, numberOfSegments: int, k: int)
    requires 0 <= k < |TubePanels(sides, numberOfSegments)|
    ensures sides > 0 && numberOfSegments > 0
    ensures 0 <= k / numberOfSegments < sides
    ensures 0 <= k % numberOfSegments < numberOfSegments
    ensures k == (k / numberOfSegments) * numberOfSegments + k % numberOfSegments
  {
    TubeLength(sides, numberOfSegments);
    Decompose(k, numberOfSegments, sides);
  }

  /** Segment s of side i is the panel at position i * numberOfSegments + s. */
  lemma TubePanelOf(sides: int, numberOfSegments: int, i: nat, s: nat)
    requires i < sides && s < numberOfSegments
    ensures 0 <= i * numberOfSegments + s < |TubePanels(sides, numberOfSegments)|
    ensures TubePanels(sides, numberOfSegments)[i * numberOfSegments + s] == SidePanel(sides, i, s)
  {
    TubePrefixLength(sides, numberOfSegments, i);
    TubePrefixAt(sides, numberOfSegments, sides, i, s);
  }

  /** Panel k is segment k % numberOfSegments of side k / numberOfSegments: sides first, then segments. */
  lemma TubePanelAt(sides: int, numberOfSegments: int, k: int)
    requires 0 <= k < |TubePanels(sides, numberOfSegments)|
    ensures sides > 0 && numberOfSegments > 0 && 0 <= k / numberOfSegments < sides && 0 <= k % numberOfSegments
    ensures TubePanels(sides, numberOfSegments)[k] ==
            SidePanel(sides, k / numberOfSegments, k % numberOfSegments)
  {
    TubePanelSide(sides, numberOfSegments, k);
    TubePanelOf(sides, numberOfSegments, k / numberOfSegments, k % numberOfSegments);
  }

  /** The fields of the panel of side i < sides, segment s. */
  lemma SidePanelFields(sides: int, i: nat, s: nat)
    requires i < sides
    ensures var p := SidePanel(sides, i, s);
      && p.className == "tube-side"
      && p.n == NatToString(i)
      && p.segment == NatToString(s)
      && p.rotation == Degrees(i * 360, sides)
      && p.rotation.Value() == (i * 360) as real / sides as real
      && 0.0 <= p.rotation.Value() < 360.0
      && (p.text.Some? <==> s == 0)
      && (p.text.Some? ==> p.text == Some("\n" + NatToString(i + 1)))
  {
    RotationRange(i, sides);
  }

  /** The fields of panel k, spelt out. */
  lemma TubePanelFields(sides: int, numberOfSegments: int, k: int)
    requires 0 <= k < |TubePanels(sides, numberOfSegments)|
    ensures numberOfSegments > 0 && 0 <= k / numberOfSegments < sides
    ensures var p := TubePanels(sides, numberOfSegments)[k];
      var i, s := k / numberOfSegments, k % numberOfSegments;
      && p.className == "tube-side"
      && p.n == NatToString(i)
      && p.segment == NatToString(s)
      && p.rotation == Degrees(i * 360, sides)
      && p.rotation.Value() == (i * 360) as real / sides as real
      && 0.0 <= p.rotation.Value() < 360.0
      && (p.text.Some? <==> s == 0)
      && (p.text.Some? ==> p.text == Some("\n" + NatToString(i + 1)))
  {
    TubePanelSide(sides, numberOfSegments, k);
    TubePanelAt(sides, numberOfSegments, k);
    SidePanelFields(sides, k / numberOfSegments, k % numberOfSegments);
  }

  /** Positions in increasing order have (quotient, remainder) in increasing lexicographic order. */
  lemma DivModOrder(k1: int, k2: int, m: int)
    requires 0 <= k1 < k2 && m > 0
    ensures k1 / m < k2 / m || (k1 / m == k2 / m && k1 % m < k2 % m)
  {
    var q1, q2 := k1 / m, k2 / m;
    MulSucc(q2, m);
    MulCancel(q1, q2 + 1, m);
  }

  /** Later panels belong to a later side, or to the same side and a later segment. */
  lemma TubePanelsOrdered(sides: int, numberOfSegments: int, k1: int, k2: int)
    requires 0 <= k1 < k2 < |TubePanels(sides, numberOfSegments)|
    ensures var p1, p2 := TubePanels(sides, numberOfSegments)[k1], TubePanels(sides, numberOfSegments)[k2];
      && IsDigits(p1.n) && IsDigits(p2.n) && IsDigits(p1.segment) && IsDigits(p2.segment)
      && (ParseDigits(p1.n) < ParseDigits(p2.n) ||
          (p1.n == p2.n && ParseDigits(p1.segment) < ParseDigits(p2.segment)))
  {
    var m := numberOfSegments;
    TubePanelAt(sides, m, k1);
    TubePanelAt(sides, m, k2);
    ParseNatToString(k1 / m);
    ParseNatToString(k2 / m);
    ParseNatToString(k1 % m);
    ParseNatToString(k2 % m);
    DivModOrder(k1, k2, m);
  }

  /** Panels at different positions differ in side index or segment number. */
  lemma TubePanelsDistinct(sides: int, numberOfSegments: int, k1: int, k2: int)
    requires 0 <= k1 < k2 < |TubePanels(sides, numberOfSegments)|
    ensures var p1, p2 := TubePanels(sides, numberOfSegments)[k1], TubePanels(sides, numberOfSegments)[k2];
      p1.n != p2.n || p1.segment != p2.segment
  {
    var m := numberOfSegments;
    TubePanelSide(sides, m, k1);
    TubePanelSide(sides, m, k2);
    TubePanelAt(sides, m, k1);
    TubePanelAt(sides, m, k2);
    var i1, s1, i2, s2 := k1 / m, k1 % m, k2 / m, k2 % m;
    if i1 == i2 {
      assert s1 != s2;
      NatToStringInjective(s1, s2);
    } else {
      NatToStringInjective(i1, i2);
    }
  }

  // ---------------------------------------------------------------------
  // Labels

  lemma {:induction false} LabelsConcat(a: seq<Panel>, b: seq<Panel>)
    ensures Labels(a + b) == Labels(a) + Labels(b)
    decreases |b|
  {
    if b == [] {
      assert a + b == a;
    } else {
      LabelsConcat(a, b[..|b| - 1]);
      assert (a + b)[..|a + b| - 1] == a + b[..|b| - 1];
    }
  }

  /** Only the first segment of a side is labelled. */
  lemma {:induction false} SideLabels(sides: int, i: nat, count: nat)
    ensures Labels(SidePanels(sides, i, count)) == if count > 0 then [Label(i)] else []
  {
    if count > 0 {
      SideLabels(sides, i, count - 1);
      var ps := SidePanels(sides, i, count);
      assert ps[..|ps| - 1] == SidePanels(sides, i, count - 1);
    }
  }

  /** Appending the label of side c to the labels of sides 0 .. c-1. */
  lemma AppendLabel(labels: seq<string>, c: nat)
    requires |labels| == c && forall k :: 0 <= k < c ==> labels[k] == Label(k)
    ensures |labels + [Label(c)]| == c + 1
    ensures forall k :: 0 <= k <= c ==> (labels + [Label(c)])[k] == Label(k)
  {
  }

  lemma {:induction false} TubePrefixLabels(sides: int, segments: nat, count: nat)
    ensures var labels := Labels(TubePrefix(sides, segments, count));
      && |labels| == (if segments > 0 then count else 0)
      && forall k :: 0 <= k < |labels| ==> labels[k] == Label(k)
  {
    if count > 0 {
      var c := count - 1;
      var before := TubePrefix(sides, segments, c);
      var row := SidePanels(sides, c, segments);
      TubePrefixLabels(sides, segments, c);
      LabelsConcat(before, row);
      SideLabels(sides, c, segments);
      assert TubePrefix(sides, segments, count) == before + row;
      if segments > 0 {
        AppendLabel(Labels(before), c);
      }
    }
  }

  /** Exactly `sides` panels are labelled, with "\n1" .. "\n<sides>" in side order, when there is at least one segment. */
  lemma TubeLabels(sides: int, numberOfSegments: int)
    ensures var labels := Labels(TubePanels(sides, numberOfSegments));
      && |labels| == (if sides > 0 && numberOfSegments > 0 then sides else 0)
      && forall k :: 0 <= k < |labels| ==> labels[k] == "\n" + NatToString(k + 1)
  {
    TubePrefixLabels(sides, SegmentCount(numberOfSegments), if sides < 0 then 0 else sides);
  }

  /** Label i is a line break followed by the decimal text of i + 1. */
  lemma LabelNumber(i: nat)
    ensures Label(i)[0] == '\n' && Label(i)[1..] == NatToString(i + 1)
    ensures IsDigits(Label(i)[1..]) && ParseDigits(Label(i)[1..]) == i + 1
  {
    ParseNatToString(i + 1);
  }

  /** Labels of different sides differ. */
  lemma LabelInjective(i: nat, j: nat)
    ensures Label(i) == Label(j) <==> i == j
  {
    LabelNumber(i);
    LabelNumber(j);
  }
}
