# Road inventory straightline diagram — Dafny model

This project models the core of a browser tool for road-infrastructure
inventory. The tool draws a *straightline diagram*: a horizontal schematic
of one road. On it are paved and unpaved road segments, proposed-work
project stations and funding-release bars, all placed by station
(kilometres from the start of the road). The user edits the three
collections in tables and narrows the view with a station-range window and
two category filters.

The model covers two source files:

- `components/StraightLineDiagram.tsx` (module `Diagram`):
  - the three record filters: open overlap `start < hi && end > lo` for
    segments and funding releases, closed containment `lo <= s <= hi` for
    stations;
  - the affine station-to-pixel map `getX` and the layout constants;
  - the segment and funding colours, the dashed overlay on unpaved
    segments and the hover emphasis (stroke 16/12, radius 10/8,
    opacity 1/0.7);
  - when the filtered-range overlay is drawn and where;
  - the list of 10 km scale ticks;
  - the three independent hover slots, as the class `Diagram.Hover`.
- `app/page.tsx`:
  - module `PageEdits`: the id-keyed `update`, `delete` and `add` of each
    collection. Each is a pure function from one inventory snapshot to the
    next, as the source's `setData(prev => …)` updaters are;
  - module `Page`: the page's mutable state (data, station range, two
    filters, edit mode) as the class `Page.Home`, whose handlers assign the
    results of those functions. It also holds the paved-section count.

Supporting modules:

- `Road`: the records of `types/road.ts`.
- `Collections`: a generic `Filter`, which is JavaScript's `Array.filter`.
  All the diagram filters, all the deletes and the paved count use it.
  The module proves that `Filter` keeps order, counts multiplicities
  exactly and is idempotent.
- `SampleData`: the fixture of `data/sampleData.ts`, with lemmas saying
  what the diagram shows of it.
- `Wrappers`: `Option`.

Stations are `real`, so the pixel map is exact arithmetic. Two values from
the host environment become parameters: ids generated from the clock
(`newId`) and the current year (`year`).

Three behaviours of the code are worth knowing:

- The mouse-leave handlers (components/StraightLineDiagram.tsx:143, 216,
  311) clear their slot unconditionally. They do not check that the
  leaving item is the hovered one. `Diagram.LateLeaveClearsHover` shows
  the effect: enter A, enter B, leave A ends with nothing hovered.
- Nothing rejects an inverted window (`lo > hi`). No station is shown.
  Segments and releases whose open range covers all of `[hi, lo]` are
  still shown (`Diagram.Overlaps`): window `[30, 20]` keeps a segment
  `[0, 50]`. The overlay box gets a negative width
  (`Diagram.InvertedRangeOverlayHasNegativeWidth`).
- `add*` ids come from `Date.now()` and are not guaranteed fresh. Unique
  ids are preserved only under an explicit freshness hypothesis
  (`PageEdits.AddsKeepIdsDistinct`).

## Model

| member | source | states |
|---|---|---|
| Collections.Filter | components/StraightLineDiagram.tsx:28-42 | The result is no longer than the input. An element is in the result iff it is in the input and passes the predicate. |
| Collections.FilterIsSubsequence | components/StraightLineDiagram.tsx:28-42 | The filtered list is an order-preserving subsequence of its input. |
| Collections.FilterAppend | components/StraightLineDiagram.tsx:28-42 | Filtering distributes over concatenation, so survivors stay in input order. |
| Collections.FilterCons | components/StraightLineDiagram.tsx:28-42 | One filter step on `[x] + s`: `x` is kept in front iff it passes. |
| Collections.FilterKeepsAll | app/page.tsx:32-37 | When every element passes, the filter returns its input unchanged. |
| Collections.FilterIdempotent | app/page.tsx:32-37 | Filtering twice with the same predicate is the same as filtering once. |
| Collections.FilterCount | app/page.tsx:32-37 | Each element keeps its exact multiplicity when it passes and has multiplicity 0 when it fails. |
| Collections.FilterCounts | components/StraightLineDiagram.tsx:28-42 | The same multiplicity law, for every element at once. |
| Collections.FilterKeepsDistinctKeys | app/page.tsx:32-37 | Filtering a sequence whose keys are unique leaves keys unique. |
| Collections.FilterIgnoresRewrittenRejects | app/page.tsx:25-37 | Rewriting only rejected elements into elements that are still rejected does not change the filter's result. |
| Collections.AppendFreshKeepsDistinctKeys | app/page.tsx:39-52 | Appending an element whose key is not yet used keeps keys unique. |
| Collections.SameKeysKeepDistinctKeys | app/page.tsx:25-30 | A pointwise rewrite that keeps every key keeps keys unique. |
| Collections.FilterAfterFilterNoLonger | app/page.tsx:248 | Filtering with another predicate first never lets more elements through. |
| Diagram.Overlaps | components/StraightLineDiagram.tsx:28-42 | For a proper range and a window with `lo <= hi`, the test holds iff some point strictly inside the range lies in the closed window. Ranges that only touch the window are out, and a range strictly containing a point window `lo == hi` is in. For an inverted window it holds iff the open range contains both `hi` and `lo`. |
| Diagram.FilteredSegments | components/StraightLineDiagram.tsx:28-32 | A segment is kept iff `start < hi`, `end > lo` and the surface filter is `all` or equals its surface. Each kept segment keeps its multiplicity, and the result is an order-preserving subsequence. |
| Diagram.FilteredStations | components/StraightLineDiagram.tsx:34-36 | A station is kept iff `lo <= station <= hi`, boundaries included. Each kept station keeps its multiplicity, and the result is an order-preserving subsequence. |
| Diagram.FilteredFunding | components/StraightLineDiagram.tsx:38-42 | A release is kept iff `start < hi`, `end > lo` and the status filter is `all` or equals its status. Each kept release keeps its multiplicity, and the result is an order-preserving subsequence. |
| Diagram.FullWindowKeepsEverything | components/StraightLineDiagram.tsx:28-42 | Window `[0, totalLength]` with both filters at `all` keeps every segment and release with `start < totalLength` and `end > 0`. |
| Diagram.InvertedWindowHidesStations | components/StraightLineDiagram.tsx:34-36 | With `lo > hi`, no station is shown. |
| Diagram.DiagramWidth | components/StraightLineDiagram.tsx:46 | The drawable width plus the left and right margins is the full width. |
| Diagram.GetX | components/StraightLineDiagram.tsx:50-53 | The offset from the left margin is to the drawable width as the station is to the road's length. |
| Diagram.GetXEndpoints | components/StraightLineDiagram.tsx:45-53 | `getX(0)` is the left margin. `getX(totalLength)` is `margin.left + diagramWidth`, where the scale line ends. |
| Diagram.GetXAffine | components/StraightLineDiagram.tsx:50-53 | A difference of stations maps to that difference times `diagramWidth / totalLength`. |
| Diagram.GetXStrictlyIncreasing | components/StraightLineDiagram.tsx:50-53 | With positive length and drawable width, `a < b` iff `getX(a) < getX(b)`. |
| Diagram.GetXMidpoint | components/StraightLineDiagram.tsx:104-105 | The average of two mapped stations is the mapped average station. Every centred label sits over its middle kilometre. |
| Diagram.SegmentColor | components/StraightLineDiagram.tsx:61-66 | Each of the four colours is returned exactly for its class: paved asphalt, paved other, unpaved gravel, unpaved other. |
| Diagram.SegmentColorRevealsPaving | components/StraightLineDiagram.tsx:61-66 | Two segments of the same colour are both paved or both unpaved. |
| Diagram.HasDashedOverlay | components/StraightLineDiagram.tsx:220-231 | The dashed overlay is drawn iff the segment is drawn in one of the two unpaved greys. |
| Diagram.FundingColor | components/StraightLineDiagram.tsx:68-75 | Completed, ongoing and planned each get their own colour, exactly. |
| Diagram.FundingColorInjective | components/StraightLineDiagram.tsx:68-75 | Two statuses have the same colour iff they are equal. |
| Diagram.SegmentStrokeWidth | components/StraightLineDiagram.tsx:214 | The stroke is 12 or 16, and it is 16 iff the slot holds this segment's id. |
| Diagram.StationRadius | components/StraightLineDiagram.tsx:306 | The radius is 8 or 10, and it is 10 iff the slot holds this station's id. |
| Diagram.FundingOpacity | components/StraightLineDiagram.tsx:139 | The opacity is 0.7 or 1, and it is 1 iff the slot holds this release's id. |
| Diagram.AtMostOneEmphasised | components/StraightLineDiagram.tsx:23-25 | One slot emphasises at most one of two distinct ids, on each layer. |
| Diagram.SegmentGlyph | components/StraightLineDiagram.tsx:200-273 | The line runs on the road track from `getX(startStation)` to `getX(endStation)`, in the segment's paving colour, with its label over the middle kilometre. The stroke is 16 when hovered and 12 otherwise, and the tooltip shows iff the segment is hovered. The dashed overlay is drawn iff the segment is unpaved. |
| Diagram.StationGlyph | components/StraightLineDiagram.tsx:286-363 | The marker sits at the mapped station. Its radius is 10 when hovered and 8 otherwise, and its tooltip shows iff it is hovered. |
| Diagram.FundingGlyph | components/StraightLineDiagram.tsx:125-187 | The bar spans the mapped start to the mapped end in its status colour, with the year label over the middle kilometre. Its opacity is 1 when hovered and 0.7 otherwise, and its tooltip shows iff it is hovered. |
| Diagram.SegmentGlyphGeometry | components/StraightLineDiagram.tsx:200-273 | The line runs left to right iff `start < end`, and then its label lies strictly between its ends. |
| Diagram.StationGlyphGeometry | components/StraightLineDiagram.tsx:286-363 | A station on the road gets a marker within the ruler's span. |
| Diagram.FundingGlyphGeometry | components/StraightLineDiagram.tsx:125-187 | The bar's width is positive iff `start < end`, and then the year label lies strictly inside the bar. |
| Diagram.RangeOverlay | components/StraightLineDiagram.tsx:91-113 | The overlay is drawn iff `lo > 0` or `hi < totalLength`. The box spans `getX(lo)` to `getX(hi)`, and the label is at the mapped midpoint. |
| Diagram.RangeOverlayWithinDiagram | components/StraightLineDiagram.tsx:91-103 | For `0 <= lo <= hi <= totalLength`, the box has non-negative width and lies within the drawable width. |
| Diagram.InvertedRangeOverlayHasNegativeWidth | components/StraightLineDiagram.tsx:91-96 | On a road of positive length, an inverted window is always highlighted, with a box of negative width. |
| Diagram.TickCount | components/StraightLineDiagram.tsx:368 | There are no ticks iff the length is negative. Otherwise the count `n` satisfies `10(n-1) <= totalLength < 10n`. |
| Diagram.ScaleTicks | components/StraightLineDiagram.tsx:368 | The ticks start at 0, are spaced 10 km apart and none exceeds the road's length. |
| Diagram.ScaleTicksExact | components/StraightLineDiagram.tsx:368 | The ticks increase strictly. They are exactly the non-negative multiples of 10 that are `<= totalLength`. |
| Diagram.TicksOnScaleLine | components/StraightLineDiagram.tsx:368-399 | For a positive length there are `floor(totalLength/10)+1` ticks, each drawn on the scale line's span. |
| Diagram.Hover.constructor | components/StraightLineDiagram.tsx:23-25 | All three slots start empty. |
| Diagram.Hover.EnterSegment | components/StraightLineDiagram.tsx:215 | Sets the segment slot to the id. The station and funding slots are unchanged. |
| Diagram.Hover.LeaveSegment | components/StraightLineDiagram.tsx:216 | Clears the segment slot whatever it held. The other slots are unchanged. |
| Diagram.Hover.EnterStation | components/StraightLineDiagram.tsx:310 | Sets the station slot to the id. The other slots are unchanged. |
| Diagram.Hover.LeaveStation | components/StraightLineDiagram.tsx:311 | Clears the station slot unconditionally. The other slots are unchanged. |
| Diagram.Hover.EnterFunding | components/StraightLineDiagram.tsx:142 | Sets the funding slot to the id. The other slots are unchanged. |
| Diagram.Hover.LeaveFunding | components/StraightLineDiagram.tsx:143 | Clears the funding slot unconditionally. The other slots are unchanged. |
| Diagram.LateLeaveClearsHover | components/StraightLineDiagram.tsx:214-216 | Enter A, enter B, then leave A ends with no segment hovered, and B drawn plain. A hovered station is unaffected. |
| PageEdits.PatchSegment | app/page.tsx:28 | Each field of the result is the update's value when supplied, and the segment's own otherwise. |
| PageEdits.PatchStation | app/page.tsx:58 | Each field of the result is the update's value when supplied, and the station's own otherwise. |
| PageEdits.PatchFunding | app/page.tsx:87 | Each field of the result is the update's value when supplied, and the release's own otherwise. |
| PageEdits.PatchLaws | app/page.tsx:25-30 | A spread with no fields is the identity. Spreading the same update twice equals spreading it once. This holds for all three record kinds. |
| PageEdits.UpdateSegment | app/page.tsx:25-30 | Length and order are kept. Only segments with that id are patched, and every other segment is unchanged. Name, length and the other two collections are unchanged. |
| PageEdits.DeleteSegment | app/page.tsx:32-37 | Exactly the segments with another id remain, as an order-preserving subsequence. The rest of the inventory is unchanged. |
| PageEdits.NextSegmentStart | app/page.tsx:43-44 | On an empty road the start is km 0. Otherwise it is the last segment's `endStation`, whether or not the list has gaps. That is the one start at which an appended section keeps a contiguous list contiguous. |
| PageEdits.AddSegment | app/page.tsx:39-52 | Exactly one segment is appended and the prefix is unchanged. The new one starts at the last `endStation`, or at 0, and ends 5 km later. It is unpaved with surface `unpaved`. |
| PageEdits.UpdateStation | app/page.tsx:55-60 | Same frame as segment update, on stations. |
| PageEdits.DeleteStation | app/page.tsx:62-67 | Same as segment delete, on stations. |
| PageEdits.JsRound | app/page.tsx:72 | `Math.round`: the unique integer in `(x - 0.5, x + 0.5]`. |
| PageEdits.AddStation | app/page.tsx:69-81 | Exactly one station is appended, at `Math.round(totalLength/2)`, with the default texts. The prefix and the rest of the inventory are unchanged. |
| PageEdits.UpdateFunding | app/page.tsx:84-89 | Same frame as segment update, on releases. |
| PageEdits.DeleteFunding | app/page.tsx:91-96 | Same as segment delete, on releases. |
| PageEdits.AddFunding | app/page.tsx:98-112 | Exactly one release is appended: `[0, 10]`, planned, amount 10000000, the given year. The prefix and the rest are unchanged. |
| PageEdits.UpdateUnknownIdIsNoop | app/page.tsx:25-89 | An update whose id matches no element leaves the inventory unchanged, for each collection. |
| PageEdits.DeleteUnknownIdIsNoop | app/page.tsx:32-96 | A delete whose id matches no element leaves the inventory unchanged, for each collection. |
| PageEdits.DeleteIsIdempotent | app/page.tsx:32-96 | A second delete of the same id changes nothing. |
| PageEdits.DeleteCounts | app/page.tsx:32-96 | Delete removes every copy of an element with that id. Every other element keeps its multiplicity. |
| PageEdits.UpdateThenDelete | app/page.tsx:25-96 | Update then delete of an id leaves no element with that id, whatever the update. If the update does not move the id, the result equals deleting straight away. |
| PageEdits.DeletesKeepIdsDistinct | app/page.tsx:32-96 | Deletes keep ids unique within each collection. |
| PageEdits.UpdatesKeepIdsDistinct | app/page.tsx:25-89 | Updates that supply no id keep ids unique. |
| PageEdits.AddsKeepIdsDistinct | app/page.tsx:39-112 | Adds keep ids unique when the generated id is not already in use in that collection. |
| PageEdits.AddSegmentKeepsContiguity | app/page.tsx:39-52 | If every segment starts where the previous one ends, that still holds after `addSegment`. The new section is a proper range. |
| PageEdits.AddedStationOnRoad | app/page.tsx:69-81 | For `totalLength >= 0`, the added station lies in `[0, totalLength]`. |
| Page.ToggledEditMode | app/page.tsx:263 | The button turns its table on iff it was not on, and otherwise turns editing off. |
| Page.ToggleTwice | app/page.tsx:263 | Two presses restore the previous mode, unless another table was being edited: then editing ends. |
| Page.FullRange | app/page.tsx:11 | The initial and reset window admits exactly the stations on `[0, totalLength]`. On a road of non-zero length it draws no overlay. |
| Page.PavedCount | app/page.tsx:248 | The paved count is at most the number of segments, and it is 0 iff no segment is paved. |
| Page.PavedCountAppend | app/page.tsx:248 | The paved count is additive over concatenation. |
| Page.EditsAndPavedCount | app/page.tsx:39-52 | `addSegment` leaves the paved count unchanged. Deleting never raises it. |
| Page.ResetShowsWholeRoad | app/page.tsx:200-204 | After a reset no overlay is drawn. Every segment and release overlapping the road is shown, and so is every station on it. |
| Page.AddedStationShownAfterReset | app/page.tsx:69-81 | With the whole road in view, the station just added is shown. |
| Page.AddedFundingShownAfterReset | app/page.tsx:98-112 | With the whole road in view and `all`, the release just added is shown iff `totalLength > 0`. |
| Page.Home.constructor | app/page.tsx:10-14 | Initial state: the given data, window `[0, totalLength]`, both filters `all`, no edit mode. |
| Page.Home.UpdateSegment | app/page.tsx:25-30 | The data becomes `PageEdits.UpdateSegment` of the old data. The controls are unchanged. |
| Page.Home.DeleteSegment | app/page.tsx:32-37 | The data becomes `PageEdits.DeleteSegment` of the old data. The controls are unchanged. |
| Page.Home.AddSegment | app/page.tsx:39-52 | The data becomes `PageEdits.AddSegment` of the old data. The controls are unchanged. |
| Page.Home.UpdateStation | app/page.tsx:55-60 | The data becomes `PageEdits.UpdateStation` of the old data. The controls are unchanged. |
| Page.Home.DeleteStation | app/page.tsx:62-67 | The data becomes `PageEdits.DeleteStation` of the old data. The controls are unchanged. |
| Page.Home.AddStation | app/page.tsx:69-81 | The data becomes `PageEdits.AddStation` of the old data. The controls are unchanged. |
| Page.Home.UpdateFunding | app/page.tsx:84-89 | The data becomes `PageEdits.UpdateFunding` of the old data. The controls are unchanged. |
| Page.Home.DeleteFunding | app/page.tsx:91-96 | The data becomes `PageEdits.DeleteFunding` of the old data. The controls are unchanged. |
| Page.Home.AddFunding | app/page.tsx:98-112 | The data becomes `PageEdits.AddFunding` of the old data. The controls are unchanged. |
| Page.Home.SetRangeStart | app/page.tsx:142 | Only the window's start changes, with no check against its end. |
| Page.Home.SetRangeEnd | app/page.tsx:150 | Only the window's end changes, with no check against its start. |
| Page.Home.SetSurfaceTypeFilter | app/page.tsx:167 | Only the surface filter changes. |
| Page.Home.SetFundingStatusFilter | app/page.tsx:185 | Only the status filter changes. |
| Page.Home.ResetFilters | app/page.tsx:200-204 | The window becomes `[0, totalLength]` and both filters become `all`. Data and edit mode are kept, and no overlay is drawn afterwards. |
| Page.Home.ToggleEditMode | app/page.tsx:263 | The edit mode becomes the toggled mode. Everything else is unchanged. |
| SampleData.SampleWindowSegments | data/sampleData.ts:6-47 | Window `[12, 20]` shows exactly `[seg2, seg3]`. seg1 `[0, 12]` only touches the window and is excluded. |
| SampleData.SampleWindowStations | data/sampleData.ts:48-84 | Window `[12, 20]` shows exactly the station at km 15. |
| SampleData.SampleWindowFunding | data/sampleData.ts:85-122 | Window `[12, 20]` shows exactly `[fr2, fr3]`. |
| SampleData.SampleOngoingFunding | data/sampleData.ts:85-122 | Window `[12, 20]` with status `ongoing` shows exactly `[fr3]`. |
| SampleData.CompletedHiddenByOngoingFilter | data/sampleData.ts:86-94 | The completed release over `[0, 12]` is hidden by the `ongoing` filter for every window. |
| SampleData.SampleAddedSegmentOffRoad | app/page.tsx:39-52 | On the sample road, `addSegment` appends `[50, 55]`. With the whole road in view, that segment is not drawn. |

## Left out

- Photo upload and the upload API routes (`app/api/…`), `components/PhotoUpload.tsx`, `components/PhotoGallery.tsx` and `utils/photoUtils.ts` are not part of this model. They are network, filesystem and EXIF-library code; the GPS-to-station functions there are placeholders that return constants.
- SVG markup beyond the modelled geometry is left out: tooltip texts and their pixel offsets, fonts, the title, the static legend and `app/layout.tsx`. These are presentation only.
- Id generation (`Date.now()`) and the current year are not modelled. They become the parameters `newId` and `year`.
- `parseFloat`/`parseInt` of form input, with its `NaN` results, is not modelled. Update fields carry already-parsed values.
- Numbers are exact reals. IEEE rounding, `NaN` and `Infinity` are not modelled. `totalLength == 0` (a division by zero in `scale`) is excluded by `GetX`'s precondition rather than given an error path, because the component does not guard it.
- The filters are datatypes (`all` or one enum value), not free strings. The page only ever sets them from its fixed option lists.
- The `default` branch of `getFundingColor` is left out. `status` is typed as one of three values and the edit form offers only those, so the branch cannot be reached.
- React plumbing is left out: `useState`, render batching, and `addSegment` reading its defaults from the rendered `data` rather than from `prev`. Sequentially these are the same snapshot.
- `updateStationRange` (app/page.tsx:20-22) is never called, so it is not modelled.
- The Hover leave methods take the leaving item's id only to show that it is ignored.
- Page.Home: which table's edit controls are rendered for a given edit mode is markup and is not modelled. Only the mode's transitions are.
