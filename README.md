# tube — a Dafny model of the tube builder

The repository draws a rotating tube (a prism that approximates a cylinder)
with CSS 3D transforms. Its core is two routines in `src/main.ts`:

- `computeTubeSideWidth` rejects fewer than three sides and otherwise gives the
  chord width `2 * radius * sin(π / sides)` of one side.
- `createTube` empties a container element, sets the container's `--width`
  (the apothem-based width `2 * radius * tan(π / sides)`) and
  `--number-of-sides` style properties, and appends one `tube-side` panel per
  side and per segment, side by side. Each panel carries its rotation
  `i * 360 / sides` degrees, its side number `--n`, its segment number
  (`data-segment`), and, for the first segment of each side only, the text
  label `"\n" + (i + 1)`.

The model has four modules:

- `Wrappers`: `Option` and `Result`.
- `NumberText`: the decimal text JavaScript gives an integer (`toString`,
  template literals), with a parser that reads it back, so that statements
  about texts can be stated as statements about numbers.
- `Tube`: the width guard, the panel as a value, and the sequence of panels
  `createTube` builds, written as specification functions (`TubePanels`,
  `TubePrefix`, `SidePanels`, `SidePanel`) with lemmas on length, position,
  fields, order, distinctness, rotation and labels.
- `TubeDom`: the container as a class whose methods clear the children, set a
  style property and append a child, and `CreateTube`, the two nested loops of
  `createTube`, proved to leave exactly `TubePanels(sides, numberOfSegments)`
  as the children and `TubeStyle(...)` as the style.

The side widths are kept symbolic (`Chord` for the sine formula, `Tangent` for
the tangent formula); the rotation is kept as the exact fraction
`Degrees(i * 360, sides)`. The documentation comments ask for at least three
sides, but only `computeTubeSideWidth` checks this; `createTube` builds panels
for any side count, and the model keeps both behaviours. `createTube` does not
call `computeTubeSideWidth`: it uses the tangent (apothem) formula and not the
sine (circumradius) one.

## Model

| member | source | states |
|---|---|---|
| Tube.ComputeTubeSideWidth | src/main.ts:12-20 | fails, with the "sides must be ≥ 3" error, exactly when sides < 3; otherwise gives the chord width for these sides and radius |
| Tube.RotationSpacing | src/main.ts:41-42 | the first side is rotated by 0 degrees and consecutive sides differ by 360 / sides degrees |
| Tube.RotationRange | src/main.ts:41-42 | every side 0 <= i < sides has a rotation in [0, 360) |
| Tube.RotationInjective | src/main.ts:41-42 | two sides have the same rotation exactly when they are the same side |
| Tube.SidePanelsLength | src/main.ts:43-57 | the inner loop for one side appends one panel per segment |
| Tube.SidePanelAt | src/main.ts:43-57 | the s-th panel of side i is that side's panel for segment s |
| Tube.TubePrefixLength | src/main.ts:41-58 | after count sides there are count * segments panels |
| Tube.TubePrefixAt | src/main.ts:41-58 | after count sides, segment s of side i sits at |prefix of i sides| + s |
| Tube.TubeLength | src/main.ts:41-47 | the container gets sides * numberOfSegments panels when both are positive and none otherwise, with no check that sides >= 3 |
| Tube.TubePanelSide | src/main.ts:41-47 | every position k splits into side k / numberOfSegments and segment k % numberOfSegments, both in range |
| Tube.TubePanelOf | src/main.ts:41-56 | segment s of side i is panel i * numberOfSegments + s |
| Tube.TubePanelAt | src/main.ts:41-56 | panel k is the panel of side k / numberOfSegments, segment k % numberOfSegments |
| Tube.SidePanelFields | src/main.ts:48-55 | a panel has class "tube-side", --n and data-segment as the decimal text of its side and segment, rotation i * 360 / sides in [0, 360), and text exactly when its segment is 0, that text being "\n" followed by i + 1 |
| Tube.TubePanelFields | src/main.ts:41-56 | the same field facts for every panel k of the finished container |
| Tube.TubePanelsOrdered | src/main.ts:41-56 | panels come in increasing (side, segment) order, read back from their --n and data-segment texts |
| Tube.TubePanelsDistinct | src/main.ts:41-56 | no two panels carry the same side and segment texts |
| Tube.SideLabels | src/main.ts:53-55 | one side's panels carry exactly one label, its own, when there is at least one segment |
| Tube.TubePrefixLabels | src/main.ts:41-58 | after count sides the labels in document order are those of sides 0 .. count - 1 |
| Tube.TubeLabels | src/main.ts:53-55 | exactly `sides` panels are labelled, with "\n1", "\n2", ... in order, when both counts are positive |
| Tube.LabelNumber | src/main.ts:54 | a label is a newline followed by the decimal text of i + 1, which reads back as i + 1 |
| Tube.LabelInjective | src/main.ts:54 | different sides have different labels |
| NumberText.NatToString | src/main.ts:51-52 | the decimal text of a natural number is non-empty, all digits, and has a leading zero only for 0 |
| NumberText.ParseNatToString | src/main.ts:51-52 | the decimal text of a natural number reads back as that number |
| NumberText.NatToStringInjective | src/main.ts:51-52 | two natural numbers have the same text exactly when they are equal |
| NumberText.IntToString | src/main.ts:40 | the text of an integer starts with '-' exactly when it is negative, and is the natural-number text otherwise |
| NumberText.ParseIntToString | src/main.ts:40 | the text of an integer is integer text and reads back as that integer |
| NumberText.IntToStringInjective | src/main.ts:40 | two integers have the same text exactly when they are equal |
| TubeDom.Container.ClearChildren | src/main.ts:34 | setting innerHTML to "" removes every child and keeps the style |
| TubeDom.Container.SetProperty | src/main.ts:39-40 | sets one style property and leaves the others and the children alone |
| TubeDom.Container.AppendChild | src/main.ts:56 | the panel becomes the last child; the style is unchanged |
| TubeDom.TubeStyleProperties | src/main.ts:36-40 | the container's --width is the tangent width for sides and radius, its --number-of-sides text reads back as sides, and no other style property changes |
| TubeDom.CreateTube | src/main.ts:28-58 | the old children are gone and the container holds exactly the panels TubePanels describes; the style gains --width and --number-of-sides, set once |
| TubeDom.CreateTubeReplacesChildren | src/main.ts:34-56 | with the default radius a caller sees the old children replaced by exactly the TubePanels sequence, sides * numberOfSegments children, child k on side k / numberOfSegments and segment k % numberOfSegments, and the container width set |

## Left out

- Tube.ComputeTubeSideWidth: the width is the symbolic `Chord(sides, radius)`; the floating-point value of `2 * radius * Math.sin(Math.PI / sides)`, its `toFixed(6)` text and the "vmin" suffix are not modelled.
- TubeDom.CreateTube: the `--width` value is the symbolic `Tangent(sides, radius)`; the floating-point tangent and its `toFixed(6)` "vmin" text are not modelled.
- Tube.SidePanelFields: the rotation is the exact fraction `i * 360 / sides`; the floating-point rounding of `(i * 360) / sides` and its `${angleDeg}deg` text are not modelled.
- Widths (`Chord`, `Tangent`) and rotations (`Degrees`) are compared as terms, not by their numeric value: `Degrees(360, 2)` and `Degrees(180, 1)` are different values although both are 180 degrees, and no contract relies on numeric equality of two such terms.
- NumberText.IntToString: integers are unbounded; JavaScript's exponent notation for magnitudes of 1e21 and more and the loss of precision above 2^53 are not modelled.
- Side and segment counts are integers: a non-integer, NaN or infinite `sides` or `numberOfSegments` (which JavaScript would accept) is not modelled.
- The container's previous children are modelled as panel values; other kinds of nodes, other element attributes and the HTML parser behind `innerHTML` are not modelled.
- `getById`, the `container1` lookup, the `window` hook for the console and the top-level `createTube(container, 32)` call are browser glue and are not modelled.
- The commented-out `createSection` calls are experiments without code and are not modelled.
- `src/gpu-info.ts` (GPU diagnostics) and `vite.config.ts` (build configuration) are not part of this model.
