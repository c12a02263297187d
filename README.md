# curious_viz1 in Dafny

A model of the chart core of curious_viz1, a set of interactive D3 pages that
explain denoising. It covers:

- the glyph plug-ins: point, arrow and flower symbols, with their
  `define`/`init`/`draw`/`remove`;
- the domain helpers `selectEnter`, `extendDomainBy`, `extendDomainByFactor`
  and `sq`;
- the scatter plot: scales, a keyed data join with enter, update and exit,
  and redraws that are idempotent;
- the two distribution plots: sampling, domains, the sorted line points and
  the density line;
- the function plot: the `x`/`y` zip, domain detection and the line;
- the two 2-D denoising pages: noise, the vector field and the animated
  story chains;
- the Iris demo: the optimal denoiser and its chain of redraws on timers.

Each core source file is one module. The modules share some helpers:

- `Wrappers`: Option and Result.
- `Records`: values, records and spread.
- `Dom`: an element tree with class and tag selectors.
- `Extent`/`Sorting`: d3.min, d3.max, d3.extent and `_.sortBy`.
- `Layout`: chart size and ranges.
- `Compare`: compareData, noise and denoise maps.
- `Transitions`: timing of named transition chains.
- `ChartSvg`, `KeyedJoin`, `SampleJoin`: svg scaffolding and the two join
  patterns.

How the model represents the program:

- **Numbers.** JavaScript numbers are `real`. A computation that would give
  NaN or an infinity (the extent of an empty list, a division by zero, a
  scale with no domain) gives `None`.
- **Transitions.** A transition is a `Tween` value holding its start value,
  end value and duration. A chain of named transitions is a timeline of
  events, and a later chain of the same name cuts it off.
- **Objects updated in place.** Scene nodes, the plots' closures and the
  demos' module state are classes, and their methods state the new state.
- **External inputs.** Values the program gets from outside are parameters:
  - `Math.random`;
  - the seeded generator;
  - Gaussian `pdf` and `ppf`;
  - `linspace`;
  - `nice`;
  - number-to-string conversion;
  - the banana data generator;
  - the DOM's container lookup.

## Model

| member | source | states |
|---|---|---|
| Utils.ExtendDomainBy | src/common/utils.js:14-16 | the domain widens by the margin on both sides: its span grows by twice the margin and its midpoint stays put |
| Utils.ExtendDomainByZero | src/utils.js:12-14 | a zero margin leaves the domain as it is |
| Utils.ExtendDomainByInverse | src/common/utils.js:14-16 | widening by m and then by -m gives back the original domain |
| Utils.ExtendDomainByContains | src/common/utils.js:14-16 | a non-negative margin gives a domain that contains the original one |
| Utils.ExtendDomainByFactor | src/common/utils.js:18-24 | the span is multiplied by the factor about the unchanged midpoint |
| Utils.ExtendDomainByFactorOne | src/common/utils.js:18-24 | a factor of 1 leaves the domain unchanged |
| Utils.ExtendDomainByFactorContains | src/common/utils.js:18-24 | for an ordered domain, a factor of at least 1 gives a domain that covers the original |
| Utils.ExtendDomainByFactorCompose | src/common/utils.js:18-24 | widening by f and then by g is the same as widening once by f·g |
| Utils.IntervalFromMidSpan | src/common/utils.js:18-24 | a domain is determined by its midpoint and span, which are all that extendDomainByFactor preserves or scales |
| Utils.Sq | src/common/utils.js:26 | the square is never negative |
| Utils.SqEven | src/common/utils.js:26 | sq(-x) = sq(x) |
| Dom.SelectEnter | src/common/utils.js:3-12 | the result is the whole selection when no element has a descendant matching the selector, and is empty as soon as one element has one |
| Dom.AppendIfAbsentCount | src/utils.js:1-10 | on one node, `selectEnter(node, q).append(child)` leaves exactly one q-match when there was none, and leaves the count unchanged otherwise |
| Dom.AppendIfAbsentIdempotent | src/common/utils.js:7-12 | applying the guarded append a second time changes nothing |
| Dom.InsertFirst | src/flowersymbol.js:61-62 | `insert(child, ':first-child')` puts the child in front of all existing children and keeps them in order |
| Dom.RemovedAt | src/pointsymbol.js:31-34 | a scheduled `transition().delay(d).remove()` takes the node out 250 ms (d3's default duration) after the delay d, and never when d is `undefined` |
| Extent.MinOf | src/functionplot.js:87 | d3.min gives nothing for an empty list; otherwise it gives a member that is at most every element |
| Extent.MaxOf | src/functionplot.js:84 | d3.max gives nothing for an empty list; otherwise it gives a member that is at least every element |
| Extent.ExtentOf | src/distributionplot.js:61 | d3.extent gives nothing exactly when the list is empty; otherwise lo ≤ hi, both are members, and every element lies between them |
| Sorting.Insert | src/distributionplot.js:52 | inserting into a sorted list keeps it sorted and adds exactly one copy of the value |
| Sorting.SortAscending | src/distributionplot.js:52-53 | `_.sortBy` gives a sorted permutation of its input |
| Sorting.SortedLength | src/plotcomponents/distributionplot.js:63-64 | sorting keeps the number of samples |
| Sorting.SortedMembers | src/plotcomponents/distributionplot.js:63-64 | a value occurs in the sorted list exactly when it occurs in the input |
| Sorting.SortIdempotent | src/plotcomponents/distributionplot.js:79-85 | a list that is already sorted is returned unchanged |
| Records.NumField | src/arrowsymbol.js:17 | reading a field of a bare sample is `undefined`; x and y of a record are its coordinates |
| Records.NumOr | src/flowersymbol.js:45-54 | an absent option takes its default and a numeric one wins; a present value that is not a number also reads as the default (see Left out) |
| Records.Spread | src/pointsymbol.js:5 | `{...a, ...b}` has the keys of both, and on a shared key the right-hand object's value wins |
| Records.Animate | src/pointsymbol.js:16-22 | a transition starts at the value set before it and settles at its target |
| Records.NumValue | src/pointsymbol.js:21 | an `undefined` number removes the attribute; a defined number sets it |
| SymbolExit.ShrinkAttrs | src/pointsymbol.js:26-30 | the exit transition runs over exitDuration and ends at `scale(0)` with fill-opacity 0 |
| SymbolExit.ShrunkSpec | src/arrowsymbol.js:31-41 | removeSymbol keeps every element of the glyph and leaves the first `.symbol` shrunk and transparent |
| SymbolExit.RemoveEach | src/pointsymbol.js:25-35 | every node of the selection gets the shrunk subtree and has its removal scheduled with exitDuration as the delay; its first `.symbol` takes the node's datum; its datum and attributes are unchanged |
| SymbolExit.RemoveOne | src/flowersymbol.js:144-154 | the same exit on one node: the subtree shrunk, the removal scheduled with exitDuration as the delay, and the `.symbol` rebound to the node's datum |
| SymbolExit.Rebound | src/arrowsymbol.js:31-41 | `selection.select('.symbol')` gives the node's first `.symbol` the node's datum, keeping the listener's options |
| SymbolExit.ExitRemovedAt | src/pointsymbol.js:25-35 | a node whose exit was set up with exitDuration leaves the document 250 ms after it, and never when it is `undefined` |
| Glyph.Init | src/plotcomponents/distributionplot.js:44 | a glyph without `init` does nothing, so only the flower glyph adds its templates to the svg |
| Glyph.DrawFails | src/flowersymbol.js:53-56 | a flower draw without both scales throws before touching the document |
| Glyph.Draw | src/distributionplot.js:113-121 | `symbol.draw` dispatches to the glyph's own draw, which sets each node's new subtree and listeners |
| Glyph.Remove | src/distributionplot.js:125-127 | `symbol.remove` shrinks each node's glyph and schedules the node's removal with the glyph's exit duration as the delay |
| Glyph.RemovalTime | src/flowersymbol.js:144-154 | a removed flower leaves the document 750 ms after the call by default; a point or arrow without exitDuration never does |
| PointSymbol.Define | src/pointsymbol.js:1-9 | with the declared signature, the properties are the second argument, so a one-argument call defines a glyph with none |
| PointSymbol.DefineIntended | src/pointsymbol.js:1-9 | with the one-argument signature, the glyph keeps the given properties |
| PointSymbol.Options | src/pointsymbol.js:4-7 | draw and remove see `{...symbolProps, ...args}`, so the call's arguments win |
| PointSymbol.CircleGrowsIn | src/pointsymbol.js:15-22 | the circle starts at radius 0 and opacity 0, and ends at symbolRadius and opacity 1 over enterDuration |
| PointSymbol.DrawAddsSymbol | src/pointsymbol.js:11-23 | there is no absence guard: each draw keeps the old subtree and adds one more `.symbol` and one more circle |
| PointSymbol.OneArgumentCallLosesRadius | src/distributionplot.js:11 | `pointSymbol({symbolRadius: 2})` as written draws a circle whose radius ends undefined |
| PointSymbol.IntendedCallKeepsRadius | src/plotcomponents/distributionplot.js:23 | with the intended signature, the same call ends at radius 2 |
| PointSymbol.Draw | src/pointsymbol.js:4-5 | every node of the selection gets the drawn subtree for the merged options; nothing else changes |
| PointSymbol.Remove | src/pointsymbol.js:6-7 | every node shrinks over the merged exitDuration, and its removal is scheduled with that delay |
| ArrowSymbol.Define | src/arrowsymbol.js:1-9 | with the declared signature, a one-argument call defines a glyph with no properties |
| ArrowSymbol.DefineIntended | src/arrowsymbol.js:1-9 | with the one-argument signature, the glyph keeps the given properties |
| ArrowSymbol.Options | src/arrowsymbol.js:4-7 | the call's arguments win over the glyph's properties |
| ArrowSymbol.ArrowStrokes | src/arrowsymbol.js:18 | the path draws a shaft from the origin to (arrowLength, 0) and two head strokes of length arrowHeadlength that both end at the tip |
| ArrowSymbol.Rotation | src/arrowsymbol.js:17 | the arrow turns by the datum's angle, or by 0 when there is none |
| ArrowSymbol.ArrowElemSpec | src/arrowsymbol.js:11-29 | the path is rotated by the datum's angle, has length 15 and head 3 by default, and fades from opacity 0 to 1 over enterDuration |
| ArrowSymbol.DrawAddsSymbol | src/arrowsymbol.js:13-16 | each draw keeps the old subtree and appends one more `.symbol` |
| ArrowSymbol.OneArgumentCallLosesDurations | src/arrowsymbol.js:1-9 | `arrowSymbol({enterDuration: 500, exitDuration: 500})` as written loses both durations |
| ArrowSymbol.IntendedCallKeepsDurations | src/arrowsymbol.js:1-9 | with the intended signature, both durations stay 500 |
| ArrowSymbol.Draw | src/arrowsymbol.js:4-5 | every node of the selection gets the drawn arrow for its own datum and the merged options |
| ArrowSymbol.Remove | src/arrowsymbol.js:31-41 | every node shrinks over the merged exitDuration, and its removal is scheduled with that delay |
| FlowerSymbol.Options | src/flowersymbol.js:8-11 | the flower merges `{...args, ...symbolProps}`, so its own properties win over the call's arguments |
| FlowerSymbol.Template | src/flowersymbol.js:19-20 | each template is one `defs` holding a group with the template's id |
| FlowerSymbol.Init | src/flowersymbol.js:17-43 | init keeps the svg's own content and appends the sepal template and then the petal template |
| FlowerSymbol.Resolve | src/flowersymbol.js:45-56 | the draw options resolve exactly when both scales are given, with xmax and ymax read from their domains; each numeric option given wins, and each absent one takes its default: 4, 30, 0.6, 500, 500, 1500 and 500 |
| FlowerSymbol.FinishBudPreserves | src/flowersymbol.js:132-141 | the bud's transition and title change no bud count |
| FlowerSymbol.BudGroupCount | src/flowersymbol.js:112-119 | the appended group holds exactly one bud |
| FlowerSymbol.DrawnBudOnce | src/flowersymbol.js:112-137 | after a draw a node has exactly one bud if it had none, and otherwise as many as before |
| FlowerSymbol.RedrawKeepsOneBud | src/flowersymbol.js:112-119 | redrawing never adds a second bud |
| FlowerSymbol.DrawnSelection | src/flowersymbol.js:112-141 | the bud and title guards as written: each is tested once on the whole selection |
| FlowerSymbol.WithBuds | src/flowersymbol.js:112-119 | the buds are appended to every node when no node has one, and to none otherwise |
| FlowerSymbol.FirstInAppend | src/flowersymbol.js:132 | `select('.bud')` finds the appended bud when the node had none before |
| FlowerSymbol.UniformSelectionAgrees | src/flowersymbol.js:112-141 | on a selection where all nodes have a bud or none does, the selection-wide guard gives each node the per-node result |
| FlowerSymbol.MixedSelectionLosesBud | src/flowersymbol.js:112 | with one node that has a bud and one that has none, the guard as written leaves the second node with no bud |
| FlowerSymbol.LeafAngles | src/flowersymbol.js:75 | the sepals point at 60, 180 and 300 degrees and the petals at 0, 120 and 240; all six angles differ |
| FlowerSymbol.RelativeArea | src/flowersymbol.js:77 | `Math.max(0, v / xymax)` is never negative, is v/xymax when that is positive, and is NaN when v or xymax is |
| FlowerSymbol.XYMax | src/flowersymbol.js:70 | `Math.max(xmax, ymax)` is the larger domain end, and NaN when either is |
| FlowerSymbol.AllLeaves | src/flowersymbol.js:71-94 | drawLeaves appends six uses, leaf k being leaf number k |
| FlowerSymbol.DrawLeafUses | src/flowersymbol.js:71-94 | the leaf loop builds exactly those six uses, in order |
| FlowerSymbol.LeavesLayout | src/flowersymbol.js:72-93 | leaves 0-2 use the sepal template and 3-5 the petal template, each turned by its angle; sepals are sized by x and petals by y, relative to xymax |
| FlowerSymbol.LeavesGroupRotation | src/flowersymbol.js:63 | the leaves group is turned by a random angle in [-60, 60) |
| FlowerSymbol.LeavesGroupCount | src/flowersymbol.js:61-62 | the inserted group is exactly one `.leaves` |
| FlowerSymbol.WithLeavesOnce | src/flowersymbol.js:121-127 | hovering adds one leaves group when there is none, and a second hover changes nothing |
| FlowerSymbol.HideDelay | src/flowersymbol.js:98 | the hide delay lies in [0.5, 1.5) times hideLeavesAverageDelay |
| FlowerSymbol.HideRemovesLeaves | src/flowersymbol.js:97-109 | hiding after a hover leaves no leaves group |
| FlowerSymbol.Draw | src/flowersymbol.js:8-9 | the draw throws without both scales and changes nothing; otherwise each node gets its drawn subtree under the per-node bud guard (see Findings), and a node whose bud is new gets listeners holding this call's options and the node's datum |
| FlowerSymbol.DrawAll | src/flowersymbol.js:112-141 | the loop registers listeners, holding the options and the node's datum, on the nodes that have no bud yet, and then draws every node |
| FlowerSymbol.ListenerKeepsCreationDatum | src/flowersymbol.js:112-132 | a node that got its bud while bound to one datum and is then rebound and redrawn keeps its listener's options and creation datum, because the redraw re-binds only the bud |
| FlowerSymbol.MouseOver | src/flowersymbol.js:121-127 | the hover draws the leaves into the bud's group, sized by the datum the group got when it was appended and with the options the listener kept; a node with no listener is unchanged |
| FlowerSymbol.MouseOut | src/flowersymbol.js:128-130 | the leaves hide after the random delay, and the bud fades back to the flower's opacity; the subtree is given in its end state (see Left out) |
| FlowerSymbol.Remove | src/flowersymbol.js:144-154 | the symbol shrinks over exitDuration (500 by default), and the node's removal is scheduled with that delay |
| ChartSvg.SizedCount | src/plotcomponents/distributionplot.js:45-47 | setting the svg's width and height changes no count of matching elements |
| ChartSvg.NewSvgCount | src/plotcomponents/distributionplot.js:41-44 | the new svg is the only element of its class in the new subtree |
| ChartSvg.TemplatesCount | src/flowersymbol.js:17-43 | the flower's init adds exactly two `defs` and no classed element |
| ChartSvg.FramedOnce | src/plotcomponents/distributionplot.js:41-44 | after a draw the container has exactly one svg of the chart's class if it had none, and an existing svg is never duplicated |
| ChartSvg.FramedInitOnce | src/plotcomponents/distributionplot.js:41-44 | `symbol.init` runs only when the svg is created: the flower's two templates are added on the first draw and never again |
| ChartSvg.FramedSized | src/plotcomponents/distributionplot.js:39-47 | after a draw the container's first svg has the configured width and height, or '100%' when none is configured |
| ChartSvg.UpdateLineCount | src/plotcomponents/distributionplot.js:202-207 | the line path is created only when the group has none, so an update never adds a second line |
| ChartSvg.UpdateLineFirst | src/plotcomponents/distributionplot.js:208-214 | after the update, the group's first line carries every attribute that was set |
| Layout.Normalize | src/plotcomponents/distributionplot.js:50-52 | a numeric margin becomes the same number on all four sides, and a four-sided margin is kept |
| Layout.NormalizeIdempotent | src/plotcomponents/distributionplot.js:50-52 | normalising again on a later call changes nothing |
| Layout.PlotWidth | src/plotcomponents/distributionplot.js:53-55 | the plot width plus the left and right margins is the configured width, or the container's client width |
| Layout.PlotHeight | src/plotcomponents/distributionplot.js:56-58 | the plot height plus the top and bottom margins is the configured height, or the container's client height |
| Layout.ApplyEnds | src/plotcomponents/distributionplot.js:59-60 | a linear scale maps the ends of a non-degenerate domain to the ends of its range |
| Layout.YFlipped | src/plotcomponents/distributionplot.js:60 | with the flipped y range, a larger value is drawn higher up |
| Layout.XIncreasing | src/plotcomponents/distributionplot.js:59 | a larger x value is drawn further right |
| KeyedJoin.FirstIndex | src/scatterplot.js:33 | the first position of a key: absent exactly when no element has the key, and no earlier element has it |
| KeyedJoin.FirstIndexIff | src/scatterplot.js:33 | i is the first position of a key exactly when element i has the key and no earlier element does |
| KeyedJoin.MatchDual | src/scatterplot.js:33 | `data(data, d => d.id)`: datum i claims node k exactly when node k is claimed by datum i |
| KeyedJoin.MatchInjective | src/scatterplot.js:33 | two data never claim the same node |
| KeyedJoin.Match | src/scatterplot.js:33 | datum i claims a node only if i is the first datum with its key, and the node it claims has the same key |
| KeyedJoin.NextClaimant | src/scatterplot.js:33 | the first datum at or after j that claims a node: no datum before it claims one, and none does if it is absent |
| KeyedJoin.Anchor | src/scatterplot.js:49 | an entering datum is inserted before a node of the old selection, or appended |
| KeyedJoin.AnchorClaimed | src/scatterplot.js:49 | an entering node is inserted before a node that the update keeps |
| KeyedJoin.EnteringAt | src/scatterplot.js:49 | exactly the entering data from j on that share one insertion point |
| KeyedJoin.EnteringAtIncreasing | src/scatterplot.js:49 | the data entering at one place are inserted in data order, none twice |
| KeyedJoin.OriginsMembers | src/scatterplot.js:31-49 | a datum is in the joined document after node k exactly when it claims node k or a later one, enters before one of them, or is appended |
| KeyedJoin.OriginsNoDup | src/scatterplot.js:31-49 | no datum appears twice in the joined document |
| KeyedJoin.OriginsCover | src/scatterplot.js:31-49 | every datum, and nothing else, appears in the joined document |
| KeyedJoin.OriginsLength | src/scatterplot.js:31-66 | once the exits are gone, the document holds exactly one node per datum |
| KeyedJoin.KeptIff | src/scatterplot.js:31-34 | a node stays exactly when it is the first node with its key and some datum has that key; every other node exits |
| KeyedJoin.Claimants | src/scatterplot.js:43-46 | the data claiming nodes k, k+1, … in node order |
| KeyedJoin.OriginsAllClaimed | src/scatterplot.js:43-46 | when every datum claims a node and every node is claimed, the document order is the node order |
| KeyedJoin.NothingEnters | src/scatterplot.js:49 | when every datum claims a node, nothing enters |
| SampleJoin.LeftToRight | src/distributionplot.js:107-110 | sorted samples are positioned left to right along the order of the points |
| SampleJoin.Enter | src/distributionplot.js:118-120 | a new `g.point` is bound to its sample, positioned at once, empty and attached |
| SampleJoin.Bind | src/distributionplot.js:107 | `data(samples)` without a key binds node i to sample i |
| SampleJoin.Move | src/distributionplot.js:112-116 | each kept point moves from where it was to its sample's position over updateDuration |
| SampleJoin.EnterAll | src/plotcomponents/distributionplot.js:187-189 | one fresh point per extra sample, in order |
| SampleJoin.Updates | src/plotcomponents/distributionplot.js:181-185 | each kept node is bound to its sample, redrawn by the glyph on its old subtree, and moved |
| SampleJoin.Enters | src/plotcomponents/distributionplot.js:187-190 | one new node per extra sample, positioned and drawn on an empty subtree |
| SampleJoin.JoinedStates | src/distributionplot.js:107-121 | the points after the join: one per sample, the old points first and the new points after them |
| SampleJoin.JoinedAt | src/distributionplot.js:107-121 | node i is the old node i updated with sample i while there is an old node i, and a new node for sample i otherwise |
| SampleJoin.JoinedDatum | src/distributionplot.js:107 | after the join, point i is bound to sample i, whether it is old or new |
| SampleJoin.JoinedPlacement | src/distributionplot.js:112-120 | an old point keeps its attachment and is moved by a transition; a new point is placed at once and attached |
| SampleJoin.ExitedStates | src/distributionplot.js:126-127 | every point without a sample keeps its datum and position, shrinks, and has its removal scheduled with the glyph's exit duration as the delay |
| SampleJoin.SameCount | src/distributionplot.js:107-127 | a redraw with as many samples as points only updates: nothing enters and nothing exits |
| SampleJoin.UpdateAll | src/distributionplot.js:112-116 | the update selection ends in the states Updates gives |
| SampleJoin.EnterDrawn | src/distributionplot.js:118-121 | the enter selection is fresh, distinct, and ends in the states Enters gives |
| SampleJoin.RemoveAll | src/distributionplot.js:126-127 | the exit selection ends in the states ExitedStates gives |
| SampleJoin.UpdateEnter | src/plotcomponents/distributionplot.js:181-190 | the kept points stay in front, in place, and are followed by the new ones; together they end in the joined states |
| SampleJoin.Join | src/plotcomponents/distributionplot.js:176-193 | the join's whole outcome: points that keep a sample stay in their places, new points follow, and the rest exit |
| SampleJoin.Kept | src/distributionplot.js:107 | the number of points that keep a sample is the smaller of the number of points and the number of samples |
| ScatterPlot.LinearEnds | src/scatterplot.js:36-40 | `(d.x - xmin)/(xmax-xmin) * width` places xmin at 0 and xmax at width |
| ScatterPlot.LinearAffine | src/scatterplot.js:38-39 | equal steps in data are equal steps on screen |
| ScatterPlot.LinearIncreasing | src/scatterplot.js:38-39 | there is no flip: larger values lie further along both axes |
| ScatterPlot.LinearDegenerate | src/scatterplot.js:38-39 | equal bounds are not guarded against, and every point gets a coordinate that is not finite |
| ScatterPlot.Xs | src/scatterplot.js:23-25 | the x values of the data, in order |
| ScatterPlot.Ys | src/scatterplot.js:27-29 | the y values of the data, in order |
| ScatterPlot.ResolveBounds | src/scatterplot.js:22-29 | a given bound is kept; a missing one is the data's minimum or maximum. The call throws exactly when a bound is missing and there is no datum to take it from |
| ScatterPlot.Keys | src/scatterplot.js:33 | the join key of each point is the id of its bound datum |
| ScatterPlot.Ids | src/scatterplot.js:33 | the join key of each datum is its id |
| ScatterPlot.Order | src/scatterplot.js:31-49 | after the join the points come from each datum exactly once |
| ScatterPlot.Reconcile | src/scatterplot.js:31-58 | the points after an update with data: one per datum, in document order |
| ScatterPlot.Unclaimed | src/scatterplot.js:61 | a point is flagged exactly when no datum claims it |
| ScatterPlot.GoneMembers | src/scatterplot.js:61-66 | the flagged points from k on, shrunk, are exactly what is collected |
| ScatterPlot.GoneNone | src/scatterplot.js:61 | with nothing flagged, nothing exits |
| ScatterPlot.Exits | src/scatterplot.js:61-66 | the exit selection is no larger than the old points |
| ScatterPlot.ExitsMembers | src/scatterplot.js:61-66 | a point exits exactly when it is an unclaimed old point, shrunk |
| ScatterPlot.ExitsShrunk | src/scatterplot.js:62-66 | every exiting point ends at radius 0 and fill-opacity 0 before it is removed |
| ScatterPlot.Repositioned | src/scatterplot.js:31-46 | an update without data keeps every point and its datum, and moves each point to its own datum's position |
| ScatterPlot.ReconcileAt | src/scatterplot.js:31-58 | point p comes from the datum the join order gives it |
| ScatterPlot.ReconcileKeys | src/scatterplot.js:31-58 | after the join, the points' keys are exactly the data's ids, one point per datum |
| ScatterPlot.ReconcileDatum | src/scatterplot.js:33 | every point is bound to the datum it comes from |
| ScatterPlot.ReconcilePlaced | src/scatterplot.js:43-52 | every point, whether kept or new, is positioned by its own datum |
| ScatterPlot.ReconcileKeepsElement | src/scatterplot.js:31-46 | the first point with an id that some datum has keeps its element, id attribute and radius, and is rebound to the first datum with that id |
| ScatterPlot.ReconcileOrigin | src/scatterplot.js:49-58 | a point that is not an old one is new: it has id `'id' + d.id`, radius 15 and opacity 1; an old point keeps its id, radius and opacity |
| ScatterPlot.ReconcileUids | src/scatterplot.js:49 | points never share an element: the old elements stay distinct and the new ones are fresh |
| ScatterPlot.ExitsIff | src/scatterplot.js:61-66 | exactly the points no datum claims exit, each shrunk |
| ScatterPlot.ReconcileIdempotent | src/scatterplot.js:11-67 | with distinct ids, updating twice with the same data gives the same points as updating once, and the second update removes nothing |
| ScatterPlot.NoExits | src/scatterplot.js:61 | nothing exits when every point is claimed |
| ScatterPlot.ReconcileOnePerId | src/scatterplot.js:31-58 | with distinct ids there is one point per id |
| ScatterPlot.Plot.Update | src/scatterplot.js:11-67 | a given width or height is stored before anything else, so it stays even when the call throws. With data, the points are joined by id and the unclaimed ones are removed; without data, the points are moved to their own data's positions (see Left out: the 200 ms transitions are given by their end states) |
| ScatterPlot.Create | src/scatterplot.js:8-71 | a new svg is updated once with the props: it holds one new point per datum, each with id `'id' + d.id`, radius 15 and opacity 1 |
| ComponentDistributionPlot.Within | src/plotcomponents/distributionplot.js:81 | a sample is kept exactly when `_.inRange` puts it inside the x domain; the filter never adds anything |
| ComponentDistributionPlot.XDomain | src/plotcomponents/distributionplot.js:70-75 | a given xDomain is used as is; otherwise the domain comes from the samples, and there is none (not a number) without samples |
| ComponentDistributionPlot.XDomainPadded | src/plotcomponents/distributionplot.js:71-72 | without a given x domain, there is at least half the samples' span free on either side of them |
| ComponentDistributionPlot.SamplesInside | src/plotcomponents/distributionplot.js:71-81 | when the samples are not all equal, every sample lies inside the fitted x domain, upper end excluded, so the line runs through all of them |
| ComponentDistributionPlot.LinePoints | src/plotcomponents/distributionplot.js:79-82 | the line points are sorted and are a permutation of the grid plus the samples inside the domain |
| ComponentDistributionPlot.LinePointsMembers | src/plotcomponents/distributionplot.js:79-82 | a value is a line point exactly when it is on the grid or is a sample inside the domain |
| ComponentDistributionPlot.LinePointsCount | src/plotcomponents/distributionplot.js:79-82 | there are as many line points as grid points and samples inside the domain together |
| ComponentDistributionPlot.YDomain | src/plotcomponents/distributionplot.js:85-90 | a given yDomain is used as is; otherwise the domain runs from 0 to 1.5 times the largest density over the line points, a bound that some line point reaches |
| ComponentDistributionPlot.LineValue | src/plotcomponents/distributionplot.js:198-201 | the curve passes through `(xScale(x), yScale(pdf(x)))` for every line point, in order |
| ComponentDistributionPlot.LineCount | src/plotcomponents/distributionplot.js:196-219 | after a draw the group holds exactly one line when lineOpacity is positive, and none otherwise |
| ComponentDistributionPlot.LineDrawn | src/plotcomponents/distributionplot.js:208-214 | with a positive opacity, the line is bound to the line points and transitions to the curve, stroke and opacity over updateDuration |
| ComponentDistributionPlot.Plot.constructor | src/plotcomponents/distributionplot.js:8-26 | the configuration defaults: margin 10/10/35/45, updateDuration 500, line blue at 0.3 with 100 points, samples drawn, the point glyph, 100 samples |
| ComponentDistributionPlot.Plot.Draw | src/plotcomponents/distributionplot.js:34-221 | one draw of nSamples samples frames the svg, normalises the margin, fits both scales to the sorted samples and line points, draws or removes the line, and joins the points when drawSamples is set, leaving nSamples points and none exiting |
| ComponentDistributionPlot.Plot.Fit | src/plotcomponents/distributionplot.js:38-90 | the svg framed, the margin normalised and both scales fitted, with the points untouched |
| ComponentDistributionPlot.Plot.DrawLineStep | src/plotcomponents/distributionplot.js:196-219 | the line drawn or removed, leaving exactly one line or none |
| ComponentDistributionPlot.Plot.DrawPoints | src/plotcomponents/distributionplot.js:174-194 | with drawSamples the points are joined to the samples; without it nothing changes |
| DistributionPlot.DefaultGlyph | src/distributionplot.js:11 | the default glyph is the point glyph with symbolRadius 2, the corrected call of the Findings (see Left out) |
| DistributionPlot.DefaultGlyphNeverRemoves | src/distributionplot.js:11 | the default glyph has no exitDuration, as written and as corrected, so an exiting point is never removed from the document |
| DistributionPlot.XDomain | src/distributionplot.js:60-65 | a given xDomain is used as is; otherwise it is the samples' extent made nice, and there is none without samples |
| DistributionPlot.Densities | src/distributionplot.js:67 | the pdf at every sample, in order |
| DistributionPlot.YDomain | src/distributionplot.js:66-71 | a given yDomain is used as is; otherwise the domain is [0, largest density over the samples] made nice, and there is none without samples |
| DistributionPlot.XDomainCovers | src/distributionplot.js:60-62 | without a given x domain, every sample lies inside it |
| DistributionPlot.YDomainCovers | src/distributionplot.js:66-68 | without a given y domain it starts at or below 0 and every sample's density lies at or below its top |
| DistributionPlot.Plot.constructor | src/distributionplot.js:7-17 | the configuration defaults: margin 10/10/25/25, the point glyph as corrected, updateDuration 500, 100 samples |
| DistributionPlot.Plot.Draw | src/distributionplot.js:25-129 | one draw of nSamples samples frames the svg, normalises the margin, fits both scales to the sorted samples, and joins the points to them, leaving nSamples points; as every draw has nSamples samples, no point ever exits |
| DistributionPlot.Plot.Fit | src/distributionplot.js:29-73 | the svg framed, the margin normalised and the scales fitted, with the points untouched |
| DistributionPlot.Plot.JoinPoints | src/distributionplot.js:106-127 | the points joined to the samples with the fitted scales |
| DistributionPlot.DrawArgs | src/distributionplot.js:113 | the glyph's draw gets exactly xScale, yScale and updateDuration |
| FunctionPlot.ZipWith | src/functionplot.js:68 | `_.zipWith(x, y, …)` is as long as the longer array |
| FunctionPlot.ZipWithAt | src/functionplot.js:68 | point i pairs x[i] with y[i], and is `undefined` past the end of an array |
| FunctionPlot.ZipUnzipX | src/functionplot.js:68 | zipping loses no x: the defined x coordinates of the points are the x array |
| FunctionPlot.ZipUnzipY | src/functionplot.js:68 | zipping loses no y: the defined y coordinates of the points are the y array |
| FunctionPlot.XDomain | src/functionplot.js:53-67 | a given xDomain is used as is; a function gets [0, 10]; data gets the extent of its x array, which is none when the array is empty |
| FunctionPlot.XDomainCovers | src/functionplot.js:63-64 | without a given domain, every x of the data lies in the x domain |
| FunctionPlot.FuncPoints | src/functionplot.js:59-60 | a function's points are `(p, f(p))` for every grid point, in order |
| FunctionPlot.FuncPointsOnGraph | src/functionplot.js:53-61 | every point of a function lies on its graph, at a grid x of its domain |
| FunctionPlot.YDomain | src/functionplot.js:72-90 | with both bounds absent the y domain is found from the data, and is none without data. A given bound is kept, and a missing one is found from the data |
| FunctionPlot.YAutoCovers | src/functionplot.js:72-79 | a y domain found from the data with a factor of at least 1 covers every y |
| FunctionPlot.YUpperCovers | src/functionplot.js:83-85 | with only the lower bound given and no y below it, the found upper bound lies above every y |
| FunctionPlot.YLowerCovers | src/functionplot.js:86-88 | with only the upper bound given and no y above it, the found lower bound lies below every y |
| FunctionPlot.Drawn | src/functionplot.js:127 | `defined(d => isFinite(d.y))`: the line skips the points without a y |
| FunctionPlot.DrawnMembers | src/functionplot.js:127 | a point is drawn exactly when it is one of the points and its y is defined |
| FunctionPlot.FuncPointsDrawn | src/functionplot.js:59-60 | a function's line passes through all its points, in grid order |
| FunctionPlot.ZipDrawn | src/functionplot.js:68 | with at least as many x as y, the line passes through exactly the points whose y is given, and each of them has an x |
| FunctionPlot.LineValue | src/functionplot.js:124-128 | the path has one polyline per run of points with a y, and each polyline goes through `(xScale(x), yScale(y))` for the points of its run, in order; it is not a number when a domain is missing or a drawn point has no x |
| FunctionPlot.Runs | src/functionplot.js:127 | a line that starts at a point with a y starts its first run at that point |
| FunctionPlot.RunsShape | src/functionplot.js:127 | every run has a point, and every point of a run is a point of the line with a y |
| FunctionPlot.RunsFlatten | src/functionplot.js:127 | joined end to end, the runs are exactly the drawn points |
| FunctionPlot.UnbrokenOneRun | src/functionplot.js:127 | points that all have a y make one polyline through all of them |
| FunctionPlot.RunsCons | src/functionplot.js:127 | a point without a y in front adds nothing; a point with a y joins the first run when the next point has a y, and starts its own run otherwise |
| FunctionPlot.GapSplits | src/functionplot.js:127 | a point without a y breaks the line: the runs are those before it followed by those after it |
| FunctionPlot.FuncPointsOneRun | src/functionplot.js:59-60 | a function's line is one unbroken polyline through all its points |
| FunctionPlot.RunsHaveX | src/functionplot.js:124-127 | when every drawn point has an x, every point of every run has an x and a y |
| FunctionPlot.PlotGroup | src/functionplot.js:93-99 | a new group holds no line |
| FunctionPlot.DrawGroupCount | src/functionplot.js:129-141 | after every draw the group holds exactly one line |
| FunctionPlot.DrawGroupLine | src/functionplot.js:101-141 | after a draw the group is translated by the margins, and its line transitions to the curve, stroke and opacity over updateDuration |
| FunctionPlot.Plot.constructor | src/functionplot.js:6-16 | the configuration defaults: margin 10/10/25/25, updateDuration 500, line blue at opacity 1 with 100 points, detection factor 1.5 |
| FunctionPlot.Plot.Draw | src/functionplot.js:24-144 | one draw frames the svg (with no glyph init), normalises the margin, fits both scales, and leaves exactly one line, drawn through the line points |
| Compare.FindById | src/plot2d.js:33 | the index found is the first target with the id; none exactly when no target has it |
| Compare.TargetAt | src/plot2d.js:31-33 | source i is paired with `targetData[i]` or a target with its id; it fails for a missing `targetData[i]` and when no target has the id |
| Compare.ShortcutAgrees | src/plot2d.js:31-33 | with distinct target ids, the same-index shortcut picks the target the search would pick |
| Compare.Arrow | src/plot2d.js:34-41 | the arrow keeps the source's id and position, and its dx, dy reach the target; `pNoisySample` is copied from `targetData[i]` |
| Compare.CompareFrom | src/plot2d.js:29-42 | one arrow per source record; on failure, the error names the first record that has no target |
| Compare.CompareFromOk | src/plot2d.js:29-42 | the pairing succeeds exactly when every record has a target; before the failing record, every record had one |
| Compare.CompareDataOk | src/plots/plot2d.js:35-48 | `compareData` succeeds exactly when the targets are at least as many as the sources and carry every source id |
| Compare.CompareFromAt | src/plot2d.js:29-42 | from record k on, arrow i joins source i to its target |
| Compare.CompareDataAt | src/plots/plot2d.js:35-48 | arrow i starts at source i and reaches a target with the same id |
| Compare.ShortcutTransparent | src/plot2d.js:29-42 | with distinct target ids, `compareData` is the pure search-by-id pairing |
| Compare.SameIdsCompare | src/plot2d.js:29-42 | records lined up by id always pair, each with the target at its own position |
| Compare.CompareByIndex | src/plotIris.js:30-36 | every field of the source is kept; dx, dy reach `targetData[i]`; it fails exactly when the targets run out |
| Compare.Noisy | src/plot2d.js:194-198 | each record moves by two independent noise draws, x before y, and keeps all other fields |
| Compare.Denoised | src/plot2d.js:201-204 | one denoised record per noisy sample |
| Compare.NoisyKeeps | src/plot2d.js:194-198 | adding noise keeps every id and every field but x and y |
| Compare.DenoisedKeeps | src/plot2d.js:201-204 | denoising keeps ids and all fields but x, y and `pNoisySample`; x and y are the estimate |
| Compare.NoiseArrows | src/plot2d.js:227-231 | the arrows from the data to its noisy version are exactly the noise drawn |
| Compare.Grid | src/plot2d.js:207-214 | the grid has one point per (x, y) pair |
| Compare.GridAt | src/plot2d.js:207-214 | grid point i·#ys+j (#ys the number of y values) is (xs[i], ys[j]) with id `'x'+x+'y'+y` |
| Compare.DenoiseField | src/plots/plot2d.js:75-79 | each grid point gets an arrow to its own denoised estimate, and the pairing never fails |
| Compare.FieldSize | src/plots/plot2d.js:67-79 | with `size` points per axis, the vector field has size² arrows |
| Transitions.Offset | src/plot2d.js:220-280 | a step starts at the sum of the durations before it, never negative |
| Transitions.StepTiming | src/plot2d.js:220-280 | a step ends `duration` after it starts, and the next step starts when it ends |
| Transitions.OffsetMonotone | src/plot2d.js:220-280 | later steps start no earlier |
| Transitions.EndsInOrder | src/plot2d.js:220-280 | with positive durations, the steps end strictly one after another |
| Transitions.At | src/plot2d.js:222-226 | listeners registered on the same event run at one time, in registration order |
| Transitions.EventsFromOrdered | src/plot2d.js:220-280 | a chain's listeners from step k on run in time order, none before step k starts |
| Transitions.EventsOrdered | src/plot2d.js:220-280 | all listeners of a chain run in time order, none before the chain starts |
| Transitions.CutoffFrom | src/plot2d.js:165 | the cutoff is the start of a newer chain with the same name, or none when no such chain follows |
| Transitions.CutoffFromFires | src/plot2d.js:165 | a listener of an older chain runs exactly when it is due no later than the cutoff |
| Transitions.CutoffFires | src/plot2d.js:165 | a listener runs exactly when it is due no later than the first newer chain of its name |
| Transitions.Until | src/plot2d.js:165 | the listeners kept are exactly those due no later than the cutoff |
| Transitions.UntilNone | src/plot2d.js:165 | a listener due after the cutoff never runs |
| Transitions.UntilPrefix | src/plot2d.js:165 | stopping a time-ordered list keeps a prefix of it, and all that is dropped is due after the cutoff |
| Transitions.UntilAll | src/plot2d.js:220 | without a cutoff, every listener runs |
| Transitions.FiredPrefix | src/plot2d.js:164-166 | a cancelled chain runs a prefix of its listeners; each one that ran was due by the cutoff and each one dropped was due after it |
| Transitions.NewestRuns | src/plot2d.js:220 | the newest chain of a name runs all its listeners |
| Transitions.InstantRuns | src/plot2d.js:165-167 | a chain of zero-duration steps runs all its listeners, even when a newer chain starts at the same time |
| Plot2d.Derive | src/plot2d.js:186-214 | the noisy and denoised data line up by id with the original data, and the arrows are their `compareData` |
| Plot2d.Arrows | src/plot2d.js:29-42 | on records lined up by id, `compareData` never throws |
| Plot2d.StoryEnd | src/plot2d.js:226-280 | each of the eight steps has one end listener |
| Plot2d.Story | src/plot2d.js:220-280 | the story chain has eight steps |
| Plot2d.StoryOffsets | src/plot2d.js:220-280 | with the story's durations, the steps end at 1000, 1500, 2500, 3000, 4000, 5000, 5500 and 6500 ms |
| Plot2d.StoryTiming | src/plot2d.js:220-280 | the story starts when it is created and has eight steps of 1000, 500, 1000, 500, 1000, 1000, 500 and 1000 ms |
| Plot2d.StoryEvents | src/plot2d.js:220-280 | run uninterrupted, the story draws the original data on the noisy panel, then one render per step end, each strictly later |
| Plot2d.StoryEventsFrom | src/plot2d.js:226-280 | from step m on, the listeners are the steps' end listeners, one per step |
| Plot2d.ApplyLast | src/plot2d.js:220-280 | a plot shows the data of its last render |
| Plot2d.ApplyUntouched | src/plot2d.js:220-280 | renders of other plots leave a plot as it was |
| Plot2d.StoryEndState | src/plot2d.js:220-280 | after the full story, the noisy panel shows the noisy data and no arrows, the denoise panel shows the vector field, and the denoised panel shows the denoised data and no arrows |
| Plot2d.StoryRendersLast | src/plot2d.js:222-280 | the story's renders in order leave each panel in its final state |
| Plot2d.ClearEmptiesLaterPanels | src/plot2d.js:167-182 | the clear listener empties the noisy, denoise and denoised panels and leaves the data panel alone |
| Plot2d.UpdateDataCancels | src/plot2d.js:153-184 | `updateData` at time t stops every older animation: only listeners due by t run, while its own clear listener runs in full |
| Plot2d.UpdateAllRuns | src/plot2d.js:145-148 | `updateAll` runs both the clear chain and the story in full when nothing newer follows |
| Plot2d.Demo.constructor | src/plot2d.js:45-283 | `init` draws the data and schedules the clear chain and the story (see Left out: as written `init` throws first) |
| Plot2d.Demo.UpdateData | src/plot2d.js:153-184 | it stores and draws the new data and schedules the clear chain |
| Plot2d.Demo.UpdateAfterData | src/plot2d.js:186-281 | it schedules the story on the stored data and draws nothing at once (see Left out: as written `sq` is missing and the call throws) |
| Plot2d.Demo.UpdateAll | src/plot2d.js:145-148 | `updateData` runs, then `updateAfterData` on the data just stored (see Left out: as written `updateAfterData` throws) |
| Plot2dPage.ComputeAllNoise | src/plots/plot2d.js:51-64 | the noisy data keeps ids and other fields; its noise comes from a generator reseeded with 42, so it is the same on every call |
| Plot2dPage.ComputeAllField | src/plots/plot2d.js:67-79 | the vector field has 12×12 arrows in row order, each from grid point (xs[i], ys[j]) with its id |
| Plot2dPage.Memo.GetOrComputeAll | src/plots/plot2d.js:85 | a hit returns the cached result and changes nothing; a miss computes, stores and returns it |
| Plot2dPage.Panels | src/plots/plot2d.js:146-182 | the data, noisy and denoise panels are all drawn |
| Plot2dPage.Page.UpdateAll | src/plots/plot2d.js:146-182 | the panels show the memoized result for the current settings; on a miss the cache gains exactly that key, bound to a fresh computation, and on a hit it is unchanged |
| Plot2dPage.Page.Init | src/plots/plot2d.js:88-185 | with no container it logs and skips; otherwise it builds the subplots and draws them, the cache gaining at most the current settings' result |
| PlotIris.Weights | src/plotIris.js:19-22 | the weight of each datum is the noise density that carries it to the sample |
| PlotIris.OptimalDenoise | src/plotIris.js:18-27 | with no data the estimate does not exist |
| PlotIris.SumWeighted | src/plotIris.js:23-24 | the sum of the products is the weighted sum |
| PlotIris.SumPositive | src/plotIris.js:25 | positive weights have a positive sum |
| PlotIris.MeanAbove | src/plotIris.js:18-27 | a weighted mean is no lower than the lowest value |
| PlotIris.MeanBelow | src/plotIris.js:18-27 | a weighted mean is no higher than the highest value |
| PlotIris.WeightsPositive | src/plotIris.js:19-22 | a density that is positive everywhere gives every datum a positive weight |
| PlotIris.OptimalDenoiseRatio | src/plotIris.js:23-26 | the estimate is the weighted sum over the total weight, because the means' counts cancel |
| PlotIris.OptimalDenoiseWithin | src/plotIris.js:18-27 | for any sample the estimate exists and lies in every box that holds the data |
| PlotIris.DenoisedWithin | src/plotIris.js:117-120 | denoised samples keep their ids and fields and lie in every box that holds the data |
| PlotIris.Offsets | src/plotIris.js:30-36 | the demo's `compareData` never throws |
| PlotIris.NoiseArrowsAreNoise | src/plotIris.js:105-110 | the noise arrows start at the data and are exactly the noise drawn |
| PlotIris.Place | src/plotIris.js:130-164 | a new timer goes behind every timer due no later and before the first one due later |
| PlotIris.Schedule | src/plotIris.js:130-164 | the timer queue stays ordered by due time and creation order |
| PlotIris.ScheduleAfterDue | src/plotIris.js:130-164 | the 500 ms and 2000 ms timers queue in order, behind timers already due |
| PlotIris.PlaceAfterAll | src/plotIris.js:130-164 | a timer due no earlier than all the others goes last |
| PlotIris.Demo.constructor | src/plotIris.js:64 | the module's variables start unset, with nothing drawn and no timer queued (see Left out: as written the module throws while loading) |
| PlotIris.Demo.UpdateData | src/plotIris.js:71-85 | the iris data is stored and drawn as flowers of opacity 0.3 |
| PlotIris.Demo.UpdateNoise | src/plotIris.js:92-111 | the noise variance is 1.3², the noisy data is stored, and the noise arrows are drawn |
| PlotIris.Demo.UpdateAfterNoise | src/plotIris.js:113-166 | the denoised data is stored, the immediate renders are made, and the two timers are queued |
| PlotIris.Demo.FireNext | src/plotIris.js:130-164 | the earliest timer fires no earlier than it is due and draws the variable as it is at that moment |
| PlotIris.Demo.UpdateAfterData | src/plotIris.js:87-90 | `updateNoise` runs, then `updateAfterNoise` on what it stored |
| PlotIris.Demo.UpdateAll | src/plotIris.js:66-69 | the data, noise and denoising steps run in turn |

## Left out

- Floating point: JavaScript numbers are exact reals. Rounding, and the NaN and infinity cases other than those modelled as `None`, are not modelled.
- Gaussian statistics: the `gaussian` package's `pdf` and `ppf` are parameters. The closed-form estimators of the 1-D pages are not part of this model.
- Randomness: `Math.random`, the `random-seed` generator and src/gaussianbananas.js are parameters, given as the sequence of values they would return.
- D3 internals are parameters or are left out: `.nice()`, `linspace`, line curves, interpolation between a tween's ends, and the frame-by-frame timer. A transition is kept as its start state, end state, delay and duration.
- SVG construction beyond the node and class structure the properties need is left out. This covers axes, axis labels, image labels, styling attributes, `raise()` and the `<title>` text formatting.
- UI and page wiring are not part of this model: src/slider.js, src/common/subplots.js, src/main.js, src/flowerplot.js, src/arrowplot.js and the 1-D plot pages.
- src/axislabels.js is left out: it is a fragment that uses undefined variables, not a module.
- FunctionPlot: src/functionplot.js:3 imports `extendDomainByFactor` from ./utils, which does not export it. The model uses the definition in src/common/utils.js:18-24.
- Plot2d, Plot2dPage, PlotIris: the calls of `scatterPlot` in src/plot2d.js and src/plotIris.js pass options that src/scatterplot.js does not take, and as written they throw. They pass no container and no `width`, so `svg.attr('width')` at src/scatterplot.js:15 reads an SVG that was never created. They pass no `data` either, so `_.minBy(data, 'x').x` at src/scatterplot.js:23 reads from `undefined`. So `init` throws at its first plot (src/plot2d.js:95), and src/plotIris.js throws while it loads (src/plotIris.js:57). src/plots/plot2d.js imports its `scatterPlot` from src/plotcomponents/scatterplot.js, which is not part of this model. The model keeps each call as the panel, plot and data it binds, and does not redraw the points.
- Plot2d.StoryEnd: the story's end listeners read the module variable `originalData` when they run. The model binds the data stored when the story was created. The two differ only if `updateData` runs in between, and that call cancels the story anyway.
- Transitions.CutoffFires: d3 runs a newer transition's start one frame after an older transition of the same name has started. The model treats listeners due exactly at the newer chain's start as still running.
- Plot2d, Plot2dPage: `optimalDenoise` (src/plot2d.js:13-26, src/plots/plot2d.js:19-32) is a parameter of these pages. PlotIris.OptimalDenoise models the same weighted mean.
- PlotIris.IrisEstimate: when the estimate is NaN, JavaScript stores NaN coordinates. The model keeps the sample's own coordinates instead. PlotIris.DenoisedWithin shows this case never arises when the density is positive.
- FlowerSymbol: the `opacity` option given as a function of the datum (src/plots/plot2d.js:174, src/plot2d.js:129) is kept as a constant.
- ArrowSymbol: the `opacity` option is merged but never read by src/arrowsymbol.js, so the model does not use it either.
- ScatterPlot.Plot.constructor: creating the plot closure holds no logic beyond storing its configuration, so it has no row.
- Concurrency: the event loop is modelled only through the order of `setTimeout` callbacks and named transition chains.
- NumOr (Records.NumOr): a present option that is not a number reads as the default. JavaScript keeps any present value other than `undefined`.
- Draw (FlowerSymbol.Draw): the bud and title guards are the per-node ones of the first Findings row, not the selection-wide guard as written. The two agree on every selection whose nodes all have a bud or none does (FlowerSymbol.UniformSelectionAgrees). FlowerSymbol.MixedSelectionLosesBud shows a selection where they differ.
- DrawAll (FlowerSymbol.DrawAll): the same per-node guards as FlowerSymbol.Draw.
- MouseOut (FlowerSymbol.MouseOut): the hide is given by its end state, applied at once. In the source the leaves stay for the delay plus `hideLeavesDuration`, and a hover in that time finds them and draws nothing. In the model a hover right after a mouseout draws new leaves.
- DefaultGlyph (DistributionPlot.DefaultGlyph): this is the corrected call of the second Findings row, so the radius is 2. As written, the radius is `undefined` (PointSymbol.OneArgumentCallLosesRadius).
- constructor (DistributionPlot.Plot.constructor): its default glyph is DistributionPlot.DefaultGlyph, as corrected.
- constructor (ComponentDistributionPlot.Plot.constructor): src/plotcomponents/distributionplot.js:4 imports its default glyph from `./symbols/pointsymbol`, which is not part of this model. The model assumes that file is src/pointsymbol.js, with the call corrected as for DistributionPlot.DefaultGlyph.
- JoinPoints (DistributionPlot.Plot.JoinPoints): the next draw joins only the points this draw kept. In the source an exiting point stays a `.point` until its removal runs (Dom.RemovedAt), which for the default glyph is never (DistributionPlot.DefaultGlyphNeverRemoves). A later `selectAll('.point')` would join it again, and its update transition would cancel the removal. No point exits while every draw has nSamples samples, which is how the plots draw.
- DrawPoints (ComponentDistributionPlot.Plot.DrawPoints): the same as DistributionPlot.Plot.JoinPoints.
- Update (ScatterPlot.Plot.Update): exiting points are removed at once, and entering points are given their end radius of 15 and opacity of 1. In the source an exiting circle stays a `.point` for its 200 ms exit (src/scatterplot.js:61-66). A draw in that time selects it again and can claim it by id. Its update transition (src/scatterplot.js:43-46) then cancels the exit and leaves the circle part-shrunk. A draw within 200 ms of an enter likewise cuts off the growth (src/scatterplot.js:49-58), and the point stays smaller than 15.
- constructor (PlotIris.Demo.constructor): the state after the module's variables are declared. As written, loading src/plotIris.js already throws at `drawArrows` (src/plotIris.js:57; see the `scatterPlot` line above). The model treats `drawArrows` as the arrow plot it is meant to be.
- constructor (Plot2d.Demo.constructor): as written, `init` throws at its first plot (src/plot2d.js:95; see the `scatterPlot` line above) before it draws or schedules anything. The model runs the rest of `init`.
- UpdateAfterData (Plot2d.Demo.UpdateAfterData): src/plot2d.js:5 imports `sq` from ./utils, which does not export it (src/utils.js:5-14). As written, `sq(noiseStdDev)` at src/plot2d.js:189 calls `undefined` and throws before the noisy data and the story are made. The model takes `sq` to be the one src/common/utils.js:26 defines, as src/plots/plot2d.js:8 imports it. The noise drawn from that variance is a parameter (Randomness above), and the story is scheduled.
- UpdateAll (Plot2d.Demo.UpdateAll): it runs Plot2d.Demo.UpdateAfterData, so as written it throws at the same call.

## Findings

| source | as written | input that shows it | evidently intended | confidence | as-written member | corrected member |
|---|---|---|---|---|---|---|
| src/flowersymbol.js:112-130 | the bud guard `selectEnter(selection, '.bud')` is tested once on the whole selection | a selection of two nodes where the first has a bud and the second has none: the second gets no bud | each node gets a bud when it has none | not executed | FlowerSymbol.MixedSelectionLosesBud | FlowerSymbol.DrawnBudOnce |
| src/pointsymbol.js:1-9 | `defineSymbol(svg, symbolProps)` is called with one argument (src/distributionplot.js:11, src/plot2d.js:88), so the props land in `svg` and `symbolRadius` is `undefined` | `pointSymbol({symbolRadius: 2})` as at src/distributionplot.js:11: the circle's radius is `undefined` | the props are merged into the symbol's properties | not executed | PointSymbol.OneArgumentCallLosesRadius | PointSymbol.IntendedCallKeepsRadius |
| src/arrowsymbol.js:1-9 | the same one-argument `defineSymbol` call (src/plot2d.js:104-133) drops every property given, such as the `exitDuration: 0` of the quick-exit arrows | `arrowSymbol({enterDuration: 500, exitDuration: 500})`: both durations are `undefined` | the props are merged into the symbol's properties | not executed | ArrowSymbol.OneArgumentCallLosesDurations | ArrowSymbol.IntendedCallKeepsDurations |
