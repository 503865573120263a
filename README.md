# gojs-react-basic: guided dragging and state sync, in Dafny

This project models the core of gojs-react-basic, a React application that
shows a GoJS diagram and keeps its React state and the GoJS model in sync.

**GuidedDraggingTool.** While a part is dragged, the tool compares it with
the other parts near it, one axis at a time. When a part is nearly aligned,
it shows a guideline. On a drop it snaps the part onto that alignment.
- `Geometry` holds points, rectangles and the three reference lines of a
  rectangle on an axis (top/center/bottom for the horizontal pass,
  left/center/right for the vertical pass).
- `Alignment` is the pure arithmetic of a pass: the search area, the
  fixed-order scoring, the snap position and the guideline span.
- `GuidedDragging` is the tool itself. It is a class with the five
  configuration fields, the six guideline overlays and the set of overlays
  currently in the diagram. The per-candidate scoring loop is a method
  proved equal to the fold `Alignment.Score`, and every property of a pass
  is proved about that fold.

**App.** `App` holds the application state: the node and link data arrays,
the model data, the selected data, the `skipsDiagramUpdate` flag, and the
two key-to-index maps beside the arrays. Its handlers are methods that
keep the invariant "each map is the one its array would rebuild". An
incremental model change applies three steps in turn: the modified
entries, then the inserted keys, then the removed keys. Each step is a
loop proved equal to a function, and lemmas about those functions state
what the step does.

**Diagram and DiagramWrapper.**
- `DiagramWrapper` has the two key generators. They search upward from
  `data.key || 1` for nodes and downward from `data.key || -1` for links.
  It also has the set-up of the dragging tool with guideline width 1.
- `src/components/Diagram.tsx:52-64` declares the same two generators with
  identical code, so the same members model both.
- `Diagram` has the component's `shouldComponentUpdate`. It compares
  arrays and objects by identity, so each object is modelled by an
  abstract reference.

**Scoring.** A pass is not a global minimum. For each candidate it compares
center with center. It then compares near edge with near edge, or near edge
with far edge only when the first did not improve. Far edges are treated
the same way. Only a strictly smaller difference replaces the running best.
`Alignment.FixedOrderIsNotGlobalMinimum` shows a candidate whose skipped
pair was the closer one.

**Drop example.** Part A is at (0, 0), and part B is dropped at (2, 48).
Both are 100x50. A drop runs the horizontal pass and then the vertical pass
(`src/GuidedDraggingTool.ts:295-296`), so B snaps twice:
- The horizontal snap moves B to (2, 50).
- On the moved bounds, B's center x (52) is 2 from A's (50). Center/center
  is compared first, and the edge pairs only tie it.
- The vertical snap then moves B to (0, 50).

`GuidedDragging.DropExampleSnapsBothAxes` proves the final location (0, 50).

## Model

| member | source | states |
|---|---|---|
| Alignment.SearchArea | src/GuidedDraggingTool.ts:327-331 | The query area is the dragged bounds widened by searchDistance on both sides across the compared axis and by snapDistance + 1 on both sides along it (the vertical pass swaps the two, line 471). |
| Alignment.SearchAreaReachesAlignedLines | src/GuidedDraggingTool.ts:327-331 | Any reference line of another part that lies within snapDistance of a line of the dragged part falls strictly inside the area's range on the compared axis, so the area never cuts off a match along that axis. |
| Alignment.SearchAreaMeetsAlignedPart | src/GuidedDraggingTool.ts:327-343 | A part that can match and whose cross extent comes within searchDistance of the dragged part meets the search area, which the query searches with partial inclusion. Its aligned line is strictly inside the area along the axis, and the two cross extents overlap. A part farther away across the axis is not reached. |
| Alignment.ScoreCandidateStep | src/GuidedDraggingTool.ts:358-388 | One candidate's comparisons never raise bestDiff. They end at or below its center/center, near/near and far/near differences. They change the best exactly when one of its five differences is below bestDiff, and then to a strictly smaller difference of a compared pair of this candidate. |
| Alignment.ScoreSound | src/GuidedDraggingTool.ts:345-391 | After a pass, bestDiff is at most snapDistance, and equals it when nothing matched. A match is a queried part other than the dragged one, with a compared spot pair whose difference is bestDiff and strictly below snapDistance. |
| Alignment.ScoreBelowEveryCandidate | src/GuidedDraggingTool.ts:350-389 | The final bestDiff is at most the center/center, near/near and far/near difference of every queried part other than the dragged one. |
| Alignment.ScoreMatchesIffWithinTolerance | src/GuidedDraggingTool.ts:345-391 | A pass finds a match if and only if some queried part other than the dragged one has one of the five compared differences strictly below snapDistance. |
| Alignment.ScoreNeverIncreases | src/GuidedDraggingTool.ts:350-389 | Over a growing prefix of the candidates, bestDiff never increases. When it stays equal, the earlier best is kept, so a later tie does not displace it. |
| Alignment.CenterWinsTies | src/GuidedDraggingTool.ts:358-376 | When center/center improves the best and no other pair of the candidate is strictly closer, the center pair wins, because later pairs need a strict improvement. |
| Alignment.FixedOrderIsNotGlobalMinimum | src/GuidedDraggingTool.ts:366-376 | A part whose top/top difference (3) improves the best ends the pass at top/top, although its top/bottom difference is 1, because the else-branch is skipped. |
| Alignment.LaterCloserCandidateWins | src/GuidedDraggingTool.ts:350-389 | For any candidates, a candidate appended to the query result changes the best exactly when one of its five compared differences is strictly below the current bestDiff. The dragged part itself never changes it. When it changes, the appended candidate is the match and bestDiff strictly decreases. |
| Alignment.SmallerLaterCandidateWins | src/GuidedDraggingTool.ts:350-389 | An example: tops 4 and then 2 away from the dragged top, both within the tolerance 6, end the pass at the second part. |
| Alignment.EdgeStepPrefersNearEdge | src/GuidedDraggingTool.ts:366-388 | For an edge of the dragged part, the other's near edge wins whenever it improves the best, even when the far edge ties it or is closer. The far edge wins only when the near edge does not improve and the far edge strictly does. Otherwise the best is unchanged. |
| Alignment.MoveTo | src/GuidedDraggingTool.ts:392-412 | part.move puts the actual bounds' corner at the point. It keeps both sizes and the offset between the location object and the actual bounds. |
| Alignment.SnapPosition | src/GuidedDraggingTool.ts:404-437 | After moving to the computed point, the matched spot of the part lies exactly on the target coordinate. The part does not move across the compared axis. |
| Alignment.SnapOfAlignedPartStaysPut | src/GuidedDraggingTool.ts:404-437 | Snapping a part whose spot already lies on the target leaves its bounds unchanged. |
| Alignment.SnapLandsOnTarget | src/GuidedDraggingTool.ts:391-446 | A snap with a match puts the matched spot on the other part's matched spot (setRectSpot on the compared axis). It keeps the cross position, both sizes and the location offset. |
| Alignment.GuidelineSpan | src/GuidedDraggingTool.ts:396-401 | The guideline runs from 10 before the smaller start of the two parts to 10 after the larger end, each bound attained by one of the parts. |
| Alignment.GuidelinePosition | src/GuidedDraggingTool.ts:415-418 | The guideline is placed exactly on the aligned coordinate along the compared axis, and at the span's start across it. |
| Alignment.DropMatchesTopToBottom | src/GuidedDraggingTool.ts:358-388 | For B at (2, 48) and A at (0, 0), both 100x50, snapDistance 6, the horizontal pass matches B's top against A's bottom with difference 2. |
| Alignment.DropSnapsOntoBottom | src/GuidedDraggingTool.ts:430-439 | That match moves B, location and actual bounds, to (2, 50). |
| Alignment.DropVerticalScore | src/GuidedDraggingTool.ts:499-528 | Given the five vertical differences of B at (2, 50) against A, the vertical pass matches center with center at difference 2, because the edge pairs only tie. |
| Alignment.DropSnapsOntoCenter | src/GuidedDraggingTool.ts:544-554 | That match moves B's location to (0, 50). |
| GuidedDragging.PlacedOverlay | src/GuidedDraggingTool.ts:396-418 | A placed guideline keeps its stroke width. It sits on the aligned coordinate, starts 10 before the two parts, and its length is their joint extent plus 20. |
| GuidedDragging.Place | src/GuidedDraggingTool.ts:415-444 | When guidelines are shown and there is a match, the winning spot's overlay on this axis is the one PlacedOverlay positions at the matched line. Every other overlay is unchanged, and the six overlays keep their stroke widths. |
| GuidedDragging.Shown | src/GuidedDraggingTool.ts:415-444 | A pass only adds to the overlays in the diagram, only an overlay of its own axis, and only when guidelines are shown and there is a match. |
| GuidedDragging.Part.Move | src/GuidedDraggingTool.ts:407-412 | The part's bounds become MoveTo of the old bounds. |
| GuidedDragging.CompareWith | src/GuidedDraggingTool.ts:358-388 | The in-place if / else-if comparisons of one candidate compute exactly the fold step ScoreCandidate. |
| GuidedDragging.FindBestMatch | src/GuidedDraggingTool.ts:345-389 | The loop over the queried parts, skipping the dragged one, computes Score. Its result is bounded by snapDistance, and a match is a queried part other than the dragged one. |
| GuidedDragging.PrimaryPart | src/GuidedDraggingTool.ts:266-270 | The dragged part is the first of copiedParts, or of draggedParts when copiedParts is null. There is none when the chosen collection is null or empty. |
| GuidedDragging.GuidedDraggingTool.constructor | src/GuidedDraggingTool.ts:32-39 | Defaults are snap distance 6, width 1, search distance 1000, guidelines and snapping on, six unplaced overlays with stroke width 1, and none shown. |
| GuidedDragging.GuidedDraggingTool.SetGuidelineSnapDistance | src/GuidedDraggingTool.ts:94-102 | It passes if and only if the value is a non-NaN, non-negative number, and then stores it. Otherwise it fails with the source's message and keeps the old value. |
| GuidedDragging.GuidedDraggingTool.SetIsGuidelineEnabled | src/GuidedDraggingTool.ts:112-120 | It passes if and only if the value is a boolean, and then stores it. Otherwise it fails with the source's message and keeps the old value. |
| GuidedDragging.GuidedDraggingTool.SetGuidelineWidth | src/GuidedDraggingTool.ts:184-198 | It passes if and only if the value is a non-NaN, non-negative number, and then stores it and sets it as the stroke width of all six overlays. Otherwise it fails and changes nothing. |
| GuidedDragging.GuidedDraggingTool.SetSearchDistance | src/GuidedDraggingTool.ts:209-217 | It passes if and only if the value is a non-NaN, strictly positive number, and then stores it. Otherwise it fails with the source's message and keeps the old value. |
| GuidedDragging.GuidedDraggingTool.SetIsGuidelineSnapEnabled | src/GuidedDraggingTool.ts:227-235 | It passes if and only if the value is a boolean, and then stores it. Otherwise it fails with the source's message and keeps the old value. |
| GuidedDragging.GuidedDraggingTool.ClearGuidelines | src/GuidedDraggingTool.ts:240-247 | No overlay is left in the diagram. |
| GuidedDragging.GuidedDraggingTool.DoDeactivate | src/GuidedDraggingTool.ts:252-256 | At the end of a drag, no overlay is left in the diagram. |
| GuidedDragging.GuidedDraggingTool.InvalidateLinks | src/GuidedDraggingTool.ts:305-307 | A node's connected links are invalidated once. Any other part is untouched. |
| GuidedDragging.GuidedDraggingTool.ShowMatches | src/GuidedDraggingTool.ts:317-447 | The part ends at Snapped of its old bounds when snapping, and is unmoved otherwise. Links are invalidated once for a snapped node. The overlays are Place and the shown set is Shown, both computed from the bounds before the snap. |
| GuidedDragging.GuidedDraggingTool.DoDragOver | src/GuidedDraggingTool.ts:261-275 | While dragging, the part does not move. The shown overlays are exactly the two passes' winners when guidelines are enabled, and none without a dragged part. |
| GuidedDragging.GuidedDraggingTool.DoDropOnto | src/GuidedDraggingTool.ts:281-298 | On a drop, no overlay is shown or moved, and the part ends at DropBounds. That is the horizontal snap, then the vertical snap on the moved bounds, exactly when snapping is enabled and shift is not held. A node's link routes are invalidated once per pass that snapped (DropSnapCount, at most 2; 0 leaves the bounds unchanged). |
| GuidedDragging.DropAlignsBothAxes | src/GuidedDraggingTool.ts:292-296 | After a snapping drop, the horizontally matched spot still lies on its target and the vertically matched spot lies on its target. A drop with no match leaves the part where it was. |
| GuidedDragging.DragOverShowsOnePerAxis | src/GuidedDraggingTool.ts:261-275 | While dragging, at most one guideline per axis is shown: the one of the spot the pass matched. None is shown when guidelines are disabled. |
| GuidedDragging.DropExampleSnapsBothAxes | src/GuidedDraggingTool.ts:281-298 | B dropped at (2, 48) next to A at (0, 0) ends at (0, 50). |
| App.IndexMap | src/App.tsx:61-66 | Every index in the map is inside the array, and every key of the array is in the map. |
| App.IndexMapIndexesLast | src/App.tsx:61-66 | The map holds exactly the array's keys. Each key maps to an index holding that key, and to the last one, because no later index holds it. |
| App.IndexMapSameKeys | src/App.tsx:61-66 | Arrays with the same keys at the same places have the same index map. |
| App.ModifiedMap | src/App.tsx:134-135 | The modified map holds exactly the keys of the modified entries, each under its own key. |
| App.Modified | src/App.tsx:133-144 | Replacing modified entries keeps the array's length. |
| App.ModifiedMapIsLast | src/App.tsx:134-135 | Each key of the modified map maps to a modified entry that no later entry with the same key follows, i.e. the last one. |
| App.ModifiedReplacesIndexed | src/App.tsx:133-144 | With a map built from the array, each element whose key was modified is replaced by the last modified entry for that key, and every other element stays. |
| App.ModifiedKeepsIndex | src/App.tsx:136-138 | Replacing modified entries keeps every key in place, so the index map stays the one the new array would build. |
| App.SelectionAfterIsLastModified | src/App.tsx:139-141 | The selected data becomes the last modified entry with its key when that key is indexed. Otherwise it is unchanged. |
| App.InsertAllKeepsIndex | src/App.tsx:145-155 | Pushing inserted data keeps the map equal to the one the new array would build. |
| App.InsertAllAppends | src/App.tsx:145-155 | The old array stays a prefix, and the old indexes stay. Each appended entry is the batch's data for an inserted key that was not indexed, appended at most once, and the map takes it at its position. |
| App.InsertAllCoversKeys | src/App.tsx:146-153 | Every inserted key whose data came in the batch is in the map afterwards. |
| App.InsertAllGrows | src/App.tsx:145-155 | The map's keys only grow as more inserted keys are processed. |
| App.Without | src/App.tsx:156-162 | Filtering never lengthens the array. |
| App.WithoutKeeps | src/App.tsx:156-162 | An entry survives removal if and only if it was in the array and its key is not removed. |
| App.WithoutKeepsOrder | src/App.tsx:156-162 | Filtering preserves order: the filter of a concatenation is the concatenation of the filters. |
| App.WithoutNothing | src/App.tsx:156-162 | Removing keys that no entry has leaves the array as it is. |
| App.SyncTableConsistent | src/App.tsx:131-199 | Applying one side of a batch (modified, inserted, removed) to a consistent array and map leaves them consistent. |
| App.ApplyModified | src/App.tsx:134-143 | The forEach over modified data computes Modified, SelectionAfter and ModifiedMap. |
| App.InsertKeys | src/App.tsx:146-154 | The forEach over inserted keys computes InsertAll. |
| App.FilterRemoved | src/App.tsx:157-162 | The filter by removed keys computes Without. |
| App.AppState.constructor | src/App.tsx:33-56 | The state starts with the demo nodes and links, model data canRelink true, no selection and no skip. Both maps are built from the arrays. |
| App.AppState.RefreshNodeIndex | src/App.tsx:61-66 | The node map becomes IndexMap of the given array. |
| App.AppState.RefreshLinkIndex | src/App.tsx:71-76 | The link map becomes IndexMap of the given array. |
| App.AppState.HandleDiagramEvent | src/App.tsx:83-112 | An empty selection clears the selected data. A selected node or link whose key is indexed selects the data with that key. Anything else changes nothing, and the maps stay consistent. |
| App.AppState.HandleModelChange | src/App.tsx:119-206 | Nodes and links are each updated by SyncTable, which keeps the maps consistent. The selection follows the modified entries, model data is replaced when supplied, and the diagram skips its next update. |
| App.AppState.SyncNodes | src/App.tsx:132-165 | The node half of a batch gives SyncTable of the node array and map, and the selection after the modified nodes. |
| App.AppState.SyncLinks | src/App.tsx:166-199 | The link half of a batch gives SyncTable of the link array and map, and the selection after the modified links. |
| App.AppState.HandleInputChange | src/App.tsx:214-237 | With data selected, the edited property is set on it. On blur, the data is written back at its index, to the link array for a negative key and to the node array otherwise. Only then is the diagram told to update. Without a selection nothing changes. The maps stay consistent. |
| App.AppState.HandleRelinkChange | src/App.tsx:243-250 | The model data becomes just canRelink with the checkbox value, and the diagram updates. |
| DiagramWrapper.MakeUniqueKey | src/components/DiagramWrapper.tsx:55-60 | It returns the smallest node key not in use at or above the start, and stores it in the data. The start is the data's key, or 1 when the key is absent or the falsy 0. |
| DiagramWrapper.MakeUniqueLinkKey | src/components/DiagramWrapper.tsx:62-67 | It returns the largest link key not in use at or below the start, and stores it in the data. The start is the data's key, or -1 when the key is absent or the falsy 0. |
| DiagramWrapper.InitDraggingTool | src/components/DiagramWrapper.tsx:46-50 | Setting guideline width 1 on a new tool is accepted. It leaves a valid tool whose six overlays are drawn with width 1. |
| Diagram.ShouldComponentUpdate | src/components/Diagram.tsx:131-152 | The component updates if and only if it is not told to skip, the three props are not all the same objects, and the arrays differ in length or element identity or the model data is another object. For props where one array object has one content, it updates if and only if it is not skipping and something differs. |

## Left out

- The GoJS spatial query `findObjectsIn` is a function parameter `find`. Its part filter (not selected, not a link, top-level, not on a temporary layer) is left out, so a candidate is any part the query returns.
- Part identity in a pass is an id. A part is skipped when its id is the dragged part's id.
- `part.move` is modelled for the part itself. Group members move with their group in GoJS, and that is not modelled.
- `setRectSpot` is modelled only on the compared axis, as the matched spot's coordinate. That is the only coordinate the source reads from it.
- The guideline overlays' GoJS Part and Shape construction, their layer, `isInDocumentBounds`, the geometry strings and the three colour properties with their setters are left out. They are presentation only.
- Coordinates are unbounded reals. Floating-point rounding, NaN and infinities are not modelled, except NaN as a rejected setter input.
- `super.doDeactivate()`, and the rest of the base DraggingTool, are not part of this model.
- The mouse position and target object passed to the drag hooks are unused in the source and are left out. `lastInput.shift` is a parameter of DoDropOnto.
- `copiedParts` and `draggedParts` are optional sequences of parts, and the first element stands for the first key of the map iterator.
- Keys are integers. String keys and other key types are not modelled.
- `App.AppState.HandleInputChange` requires that the edited property is not `key`, because the inspector's key row is disabled (src/components/InspectorRow.tsx:35). The entered value is modelled as a string.
- Immer's draft and produce mechanics are modelled as plain updates of the state's fields. The key-to-index maps, which are module-level in the source, are fields of the same state object.
- React rendering, JSX, hooks, the `useEffect` timing, the diagram listeners and the components' merge of props into the GoJS model (`componentDidMount`, `componentDidUpdate`, `mergeNodeDataArray`) are not part of this model.
- `toIncrementalData`, the undo manager, the node and link templates and the layout are GoJS library code and are not part of this model.
- SelectionInspector and InspectorRow rendering are not part of this model.
