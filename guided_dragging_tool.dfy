/**
 * The GuidedDraggingTool: a dragging tool that, while a part is dragged,
 * shows a guideline when the part is nearly aligned with another part, and
 * on a drop snaps the part onto that alignment. The configuration fields,
 * the six guideline overlays and the per-axis passes are modelled here;
 * the scoring arithmetic lives in Alignment.
 */
module GuidedDragging {

  import opened Wrappers
  import opened Geometry
  import opened Alignment

  // ---------------------------------------------------------------- inputs

  /**
   * A value handed to a property setter from JavaScript. NaN is a value of
   * type "number" that is not a real; every type other than number and
   * boolean is OtherValue.
   */
  datatype JsValue = Number(n: real) | NaN | Boolean(b: bool) | OtherValue

  /** `typeof val === "number"`. */
  predicate IsNumberType(v: JsValue) {
    v.Number? || v.NaN?
  }

  /** The setters' test for guidelineSnapDistance and guidelineWidth: a number, not NaN, not negative. */
  predicate IsNonNegativeNumber(v: JsValue) {
    IsNumberType(v) && !v.NaN? && v.n >= 0.0
  }

  /** The setter's test for searchDistance: a number, not NaN, strictly positive. */
  predicate IsPositiveNumber(v: JsValue) {
    IsNumberType(v) && !v.NaN? && v.n > 0.0
  }

  /** How a setter call ends: it returns, or it throws an Error with this message. */
  datatype Outcome = Pass | Fail(message: string)

  const SnapDistanceError := "new value for GuideddraggingTool.guidelineSnapDistance must be a non-negative number"
  const GuidelineEnabledError := "new value for GuidedDraggingTool.isGuidelineEnabled must be a boolean value."
  const GuidelineWidthError := "New value for GuidedDraggingTool.guidelineWidth must be a non-negative number."
  const SearchDistanceError := "new value for GuidedDraggingTool.searchDistance must be a positive number."
  const SnapEnabledError := "new value for GuidedDraggingTool.isGuidelineSnapEnabled must be a boolean."

  // -------------------------------------------------------------- overlays

  /**
   * One of the six temporary guideline parts: guidelineHtop, Hcenter and
   * Hbottom are the horizontal ones, guidelineVleft, Vcenter and Vright the
   * vertical ones.
   */
  datatype Guideline = Guideline(axis: Axis, spot: Spot)

  const AllGuidelines: set<Guideline> := {
    Guideline(Horizontal, Near), Guideline(Horizontal, Center), Guideline(Horizontal, Far),
    Guideline(Vertical, Near), Guideline(Vertical, Center), Guideline(Vertical, Far)
  }

  /**
   * What a guideline part carries: its position (unset until first shown),
   * the length of its line shape (the shape's width for a horizontal line,
   * its height for a vertical one; unset until first shown) and the shape's
   * strokeWidth.
   */
  datatype Overlay = Overlay(position: Option<Point>, length: Option<real>, strokeWidth: real)

  /** A freshly constructed guideline part: no position, no length, strokeWidth 1. */
  const InitialOverlay := Overlay(None, None, 1.0)

  /**
   * The guideline part for `m`, placed: at the aligned coordinate along the
   * compared axis, starting 10 before the two parts across it, and as long
   * as the span of both parts plus 10 on each side.
   */
  function PlacedOverlay(o: Overlay, axis: Axis, bounds: Rect, m: Match): (r: Overlay)
    ensures r.strokeWidth == o.strokeWidth
    ensures r.position.Some? && r.length.Some?
    ensures Coord(r.position.value, axis) == Line(m.other.bounds, axis, m.otherSpot)
    ensures CrossCoord(r.position.value, axis)
      == Min(CrossStart(bounds, axis), CrossStart(m.other.bounds, axis)) - 10.0
    ensures r.length.value
      == Max(CrossEnd(bounds, axis), CrossEnd(m.other.bounds, axis)) - Min(CrossStart(bounds, axis), CrossStart(m.other.bounds, axis)) + 20.0
  {
    var span := GuidelineSpan(bounds, m.other.bounds, axis);
    o.(position := Some(GuidelinePosition(axis, span, Target(m, axis))), length := Some(span.hi - span.lo))
  }

  lemma GuidelineInAll(g: Guideline)
    ensures g in AllGuidelines
  {
    match g
    case Guideline(Horizontal, Near) =>
    case Guideline(Horizontal, Center) =>
    case Guideline(Horizontal, Far) =>
    case Guideline(Vertical, Near) =>
    case Guideline(Vertical, Center) =>
    case Guideline(Vertical, Far) =>
  }

  /** The overlays after a pass: the winning spot's overlay placed when guidelines are shown and there is a match. */
  function Place(overlays: map<Guideline, Overlay>, axis: Axis, bounds: Rect, best: Best, guideline: bool): (r: map<Guideline, Overlay>)
    requires overlays.Keys == AllGuidelines
    ensures r.Keys == AllGuidelines
    ensures forall g :: g in r ==> r[g].strokeWidth == overlays[g].strokeWidth
    ensures forall g :: g in r && (!guideline || best.found.None? || g != Guideline(axis, best.found.value.spot)) ==> r[g] == overlays[g]
    ensures guideline && best.found.Some? ==>
      var g := Guideline(axis, best.found.value.spot);
      g in overlays && g in r && r[g] == PlacedOverlay(overlays[g], axis, bounds, best.found.value)
  {
    if guideline && best.found.Some? then
      var g := Guideline(axis, best.found.value.spot);
      assert g in AllGuidelines by { GuidelineInAll(g); }
      overlays[g := PlacedOverlay(overlays[g], axis, bounds, best.found.value)]
    else overlays
  }

  /** The overlays in the diagram after a pass: the winning spot's overlay is added when guidelines are shown. */
  function Shown(shown: set<Guideline>, axis: Axis, best: Best, guideline: bool): (r: set<Guideline>)
    ensures shown <= r
    ensures forall g :: g in r && g !in shown ==> g.axis == axis
    ensures r != shown ==> guideline && best.found.Some?
  {
    if guideline && best.found.Some? then shown + {Guideline(axis, best.found.value.spot)} else shown
  }

  /** Every overlay of the map drawn with stroke width `w`. */
  function WithStrokeWidth(overlays: map<Guideline, Overlay>, w: real): map<Guideline, Overlay> {
    map g | g in overlays :: overlays[g].(strokeWidth := w)
  }

  /** A map that restrokes each of the six overlays to `w` is WithStrokeWidth. */
  lemma RestrokeEach(overlays: map<Guideline, Overlay>, r: map<Guideline, Overlay>, w: real)
    requires overlays.Keys == AllGuidelines && r.Keys == AllGuidelines
    requires forall g :: g in r ==> r[g] == overlays[g].(strokeWidth := w)
    ensures r == WithStrokeWidth(overlays, w)
  {
  }

  // ----------------------------------------------------------------- parts

  /**
   * A part of the diagram as the tool sees it: an identity, whether it is a
   * Node (only nodes have connected links), its bounds, and how many times
   * its connected link routes have been invalidated.
   */
  class Part {
    const id: nat
    const isNode: bool
    var bounds: PartBounds
    var linkInvalidations: nat

    constructor (id: nat, isNode: bool, bounds: PartBounds)
      ensures this.id == id && this.isNode == isNode && this.bounds == bounds
      ensures linkInvalidations == 0
    {
      this.id := id;
      this.isNode := isNode;
      this.bounds := bounds;
      linkInvalidations := 0;
    }

    /** part.move: the actual bounds take the new top-left corner, the location object moves with them. */
    method Move(p: Point)
      modifies this`bounds
      ensures bounds == MoveTo(old(bounds), p)
    {
      bounds := MoveTo(bounds, p);
    }
  }

  /**
   * The comparisons the pass makes for one candidate other than the
   * dragged part, updating bestDiff and the match in place: center with
   * center; near edge with near edge, else near with far; far edge with
   * near edge, else far with far.
   */
  method CompareWith(bounds: Rect, axis: Axis, other: Candidate, bestDiff0: real, found0: Option<Match>)
    returns (bestDiff: real, found: Option<Match>)
    ensures Best(bestDiff, found) == ScoreCandidate(Best(bestDiff0, found0), bounds, axis, other)
  {
    bestDiff, found := bestDiff0, found0;
    var p0 := Line(bounds, axis, Near);
    var p1 := Line(bounds, axis, Center);
    var p2 := Line(bounds, axis, Far);
    var q0 := Line(other.bounds, axis, Near);
    var q1 := Line(other.bounds, axis, Center);
    var q2 := Line(other.bounds, axis, Far);
    if Abs(p1 - q1) < bestDiff {
      bestDiff := Abs(p1 - q1);
      found := Some(Match(other, Center, Center));
    }
    ghost var afterCenter := Best(bestDiff, found);
    assert afterCenter == Improve(Best(bestDiff0, found0), Diff(bounds, other.bounds, axis, Center, Center), Match(other, Center, Center));
    if Abs(p0 - q0) < bestDiff {
      bestDiff := Abs(p0 - q0);
      found := Some(Match(other, Near, Near));
    } else if Abs(p0 - q2) < bestDiff {
      bestDiff := Abs(p0 - q2);
      found := Some(Match(other, Near, Far));
    }
    assert Best(bestDiff, found) == EdgeStep(afterCenter, bounds, axis, other, Near);
    ghost var afterNear := Best(bestDiff, found);
    if Abs(p2 - q0) < bestDiff {
      bestDiff := Abs(p2 - q0);
      found := Some(Match(other, Far, Near));
    } else if Abs(p2 - q2) < bestDiff {
      bestDiff := Abs(p2 - q2);
      found := Some(Match(other, Far, Far));
    }
    assert Best(bestDiff, found) == EdgeStep(afterNear, bounds, axis, other, Far);
  }

  /**
   * The running best of a pass, computed the way the source does: one
   * candidate at a time, skipping the dragged part itself, with bestDiff
   * and the match (bestObj, bestSpot, bestOtherSpot) updated in place. It
   * is the fold Score, so every property proved of Score holds of it.
   */
  method FindBestMatch(bounds: Rect, axis: Axis, selfId: nat, cands: seq<Candidate>, snapDistance: real) returns (r: Best)
    ensures r == Score(bounds, axis, selfId, cands, snapDistance)
    ensures r.diff <= snapDistance
    ensures r.found.Some? ==> r.diff < snapDistance && r.found.value.other in cands && r.found.value.other.id != selfId
  {
    var bestDiff := snapDistance;
    var found: Option<Match> := None;
    var i := 0;
    while i < |cands|
      invariant 0 <= i <= |cands|
      invariant Best(bestDiff, found) == Score(bounds, axis, selfId, cands[..i], snapDistance)
    {
      var other := cands[i];
      ScoreNext(bounds, axis, selfId, cands, i, snapDistance);
      if other.id != selfId {
        bestDiff, found := CompareWith(bounds, axis, other, bestDiff, found);
      }
      i := i + 1;
    }
    assert cands[..|cands|] == cands;
    r := Best(bestDiff, found);
    ScoreSound(bounds, axis, selfId, cands, snapDistance);
  }

  /**
   * The result of one pass over the candidates the spatial query returns
   * for the pass's search area.
   */
  function PassBest(bounds: Rect, axis: Axis, selfId: nat, find: Rect -> seq<Candidate>, snapDistance: real, searchDistance: real): Best {
    Score(bounds, axis, selfId, find(SearchArea(bounds, axis, snapDistance, searchDistance)), snapDistance)
  }

  /**
   * The part chosen by the drag hooks: the first of copiedParts, or of
   * draggedParts when there are no copied parts; none when that collection
   * is null or empty.
   */
  function PrimaryPart(copiedParts: Option<seq<Part>>, draggedParts: Option<seq<Part>>): (r: Option<Part>)
    ensures r.Some? ==>
      if copiedParts.Some? then |copiedParts.value| > 0 && r.value == copiedParts.value[0]
      else draggedParts.Some? && |draggedParts.value| > 0 && r.value == draggedParts.value[0]
    ensures r.None? ==>
      if copiedParts.Some? then |copiedParts.value| == 0
      else draggedParts.None? || |draggedParts.value| == 0
  {
    var parts := if copiedParts.Some? then copiedParts else draggedParts;
    if parts.None? || |parts.value| == 0 then None else Some(parts.value[0])
  }

  /** The parts a drag hook may move: the primary part, if any. */
  function PrimarySet(copiedParts: Option<seq<Part>>, draggedParts: Option<seq<Part>>): set<Part> {
    var p := PrimaryPart(copiedParts, draggedParts);
    if p.Some? then {p.value} else {}
  }

  /**
   * The bounds of a dropped part: the horizontal pass snaps it first, and
   * the vertical pass then runs on the bounds that snap left.
   */
  function DropBounds(b: PartBounds, selfId: nat, find: Rect -> seq<Candidate>, snapDistance: real, searchDistance: real, snap: bool): PartBounds {
    if !snap then b
    else
      var h := PassBest(b.location, Horizontal, selfId, find, snapDistance, searchDistance);
      var b1 := Snapped(b, Horizontal, h);
      Snapped(b1, Vertical, PassBest(b1.location, Vertical, selfId, find, snapDistance, searchDistance))
  }

  /**
   * How many times a drop invalidates the routes of a node's links: once
   * for each of the two passes that found a match, and never when
   * snapping is off.
   */
  function DropSnapCount(b: PartBounds, selfId: nat, find: Rect -> seq<Candidate>, snapDistance: real, searchDistance: real, snap: bool): (n: nat)
    ensures n <= 2
    ensures n == 0 ==> DropBounds(b, selfId, find, snapDistance, searchDistance, snap) == b
  {
    if !snap then 0
    else
      var h := PassBest(b.location, Horizontal, selfId, find, snapDistance, searchDistance);
      var b1 := Snapped(b, Horizontal, h);
      var v := PassBest(b1.location, Vertical, selfId, find, snapDistance, searchDistance);
      (if h.found.Some? then 1 else 0) + (if v.found.Some? then 1 else 0)
  }

  // ------------------------------------------------------------------ tool

  class GuidedDraggingTool {
    var guidelineSnapDistance: real
    var isGuidelineEnabled: bool
    var guidelineWidth: real
    var searchDistance: real
    var isGuidelineSnapEnabled: bool
    /** The six guideline parts. */
    var overlays: map<Guideline, Overlay>
    /** The guideline parts currently added to the diagram. */
    var shown: set<Guideline>

    /**
     * The setters keep snap distance and width non-negative and the search
     * distance positive; the six guideline parts exist, drawn with the
     * configured width.
     */
    predicate Valid()
      reads this
    {
      && guidelineSnapDistance >= 0.0
      && guidelineWidth >= 0.0
      && searchDistance > 0.0
      && overlays.Keys == AllGuidelines
      && (forall g :: g in overlays ==> overlays[g].strokeWidth == guidelineWidth)
      && shown <= AllGuidelines
    }

    /** The defaults: snap distance 6, width 1, search distance 1000, both switches on; no guideline in the diagram. */
    constructor ()
      ensures Valid()
      ensures guidelineSnapDistance == 6.0 && guidelineWidth == 1.0 && searchDistance == 1000.0
      ensures isGuidelineEnabled && isGuidelineSnapEnabled
      ensures overlays == map g | g in AllGuidelines :: InitialOverlay
      ensures shown == {}
    {
      guidelineSnapDistance := 6.0;
      isGuidelineEnabled := true;
      guidelineWidth := 1.0;
      searchDistance := 1000.0;
      isGuidelineSnapEnabled := true;
      overlays := map g | g in AllGuidelines :: InitialOverlay;
      shown := {};
    }

    // ------------------------------------------------------ configuration

    /** Accepts a non-negative number; anything else throws and keeps the old value. */
    method SetGuidelineSnapDistance(val: JsValue) returns (o: Outcome)
      requires Valid()
      modifies this`guidelineSnapDistance
      ensures Valid()
      ensures o.Pass? <==> IsNonNegativeNumber(val)
      ensures o.Fail? ==> o.message == SnapDistanceError && guidelineSnapDistance == old(guidelineSnapDistance)
      ensures o.Pass? ==> guidelineSnapDistance == val.n
    {
      if !IsNumberType(val) || val.NaN? || val.n < 0.0 {
        return Fail(SnapDistanceError);
      }
      if guidelineSnapDistance != val.n {
        guidelineSnapDistance := val.n;
      }
      return Pass;
    }

    /** Accepts a boolean; anything else throws and keeps the old value. */
    method SetIsGuidelineEnabled(val: JsValue) returns (o: Outcome)
      requires Valid()
      modifies this`isGuidelineEnabled
      ensures Valid()
      ensures o.Pass? <==> val.Boolean?
      ensures o.Fail? ==> o.message == GuidelineEnabledError && isGuidelineEnabled == old(isGuidelineEnabled)
      ensures o.Pass? ==> isGuidelineEnabled == val.b
    {
      if !val.Boolean? {
        return Fail(GuidelineEnabledError);
      }
      if isGuidelineEnabled != val.b {
        isGuidelineEnabled := val.b;
      }
      return Pass;
    }

    /**
     * Accepts a non-negative number and draws all six guidelines with it;
     * anything else throws and changes nothing.
     */
    method SetGuidelineWidth(val: JsValue) returns (o: Outcome)
      requires Valid()
      modifies this`guidelineWidth, this`overlays
      ensures Valid()
      ensures o.Pass? <==> IsNonNegativeNumber(val)
      ensures o.Fail? ==> o.message == GuidelineWidthError
      ensures o.Fail? ==> guidelineWidth == old(guidelineWidth) && overlays == old(overlays)
      ensures o.Pass? ==> guidelineWidth == val.n && overlays == WithStrokeWidth(old(overlays), val.n)
    {
      if !IsNumberType(val) || val.NaN? || val.n < 0.0 {
        return Fail(GuidelineWidthError);
      }
      var restroked := WithStrokeWidth(overlays, val.n);
      if guidelineWidth != val.n {
        var ov := overlays;
        ov := ov[Guideline(Vertical, Center) := ov[Guideline(Vertical, Center)].(strokeWidth := val.n)];
        ov := ov[Guideline(Horizontal, Center) := ov[Guideline(Horizontal, Center)].(strokeWidth := val.n)];
        ov := ov[Guideline(Vertical, Near) := ov[Guideline(Vertical, Near)].(strokeWidth := val.n)];
        ov := ov[Guideline(Vertical, Far) := ov[Guideline(Vertical, Far)].(strokeWidth := val.n)];
        ov := ov[Guideline(Horizontal, Far) := ov[Guideline(Horizontal, Far)].(strokeWidth := val.n)];
        ov := ov[Guideline(Horizontal, Near) := ov[Guideline(Horizontal, Near)].(strokeWidth := val.n)];
        assert ov == restroked by { RestrokeEach(overlays, ov, val.n); }
        guidelineWidth := val.n;
        overlays := ov;
      } else {
        assert overlays == restroked by { RestrokeEach(overlays, overlays, val.n); }
      }
      return Pass;
    }

    /** Accepts a strictly positive number; anything else throws and keeps the old value. */
    method SetSearchDistance(val: JsValue) returns (o: Outcome)
      requires Valid()
      modifies this`searchDistance
      ensures Valid()
      ensures o.Pass? <==> IsPositiveNumber(val)
      ensures o.Fail? ==> o.message == SearchDistanceError && searchDistance == old(searchDistance)
      ensures o.Pass? ==> searchDistance == val.n
    {
      if !IsNumberType(val) || val.NaN? || val.n <= 0.0 {
        return Fail(SearchDistanceError);
      }
      if searchDistance != val.n {
        searchDistance := val.n;
      }
      return Pass;
    }

    /** Accepts a boolean; anything else throws and keeps the old value. */
    method SetIsGuidelineSnapEnabled(val: JsValue) returns (o: Outcome)
      requires Valid()
      modifies this`isGuidelineSnapEnabled
      ensures Valid()
      ensures o.Pass? <==> val.Boolean?
      ensures o.Fail? ==> o.message == SnapEnabledError && isGuidelineSnapEnabled == old(isGuidelineSnapEnabled)
      ensures o.Pass? ==> isGuidelineSnapEnabled == val.b
    {
      if !val.Boolean? {
        return Fail(SnapEnabledError);
      }
      if isGuidelineSnapEnabled != val.b {
        isGuidelineSnapEnabled := val.b;
      }
      return Pass;
    }

    // ----------------------------------------------------------- overlays

    /** Removes the six guideline parts from the diagram, one by one. */
    method ClearGuidelines()
      requires Valid()
      modifies this`shown
      ensures Valid()
      ensures shown == {}
    {
      shown := shown - {Guideline(Horizontal, Far)};
      shown := shown - {Guideline(Horizontal, Center)};
      shown := shown - {Guideline(Horizontal, Near)};
      shown := shown - {Guideline(Vertical, Near)};
      shown := shown - {Guideline(Vertical, Far)};
      shown := shown - {Guideline(Vertical, Center)};
    }

    /** The end of a drag: no guideline is left in the diagram. */
    method DoDeactivate()
      requires Valid()
      modifies this`shown
      ensures Valid()
      ensures shown == {}
    {
      ClearGuidelines();
    }

    /** invalidateConnectedLinks on a node; nothing for any other part. */
    method InvalidateLinks(part: Part)
      modifies part`linkInvalidations
      ensures part.linkInvalidations == old(part.linkInvalidations) + (if part.isNode then 1 else 0)
    {
      if part.isNode {
        part.linkInvalidations := part.linkInvalidations + 1;
      }
    }

    // ------------------------------------------------------------- passes

    /**
     * showHorizontalMatches (axis Horizontal) and showVerticalMatches (axis
     * Vertical): score the candidates the query returns for the search
     * area; on a match, snap the part onto it when `snap` holds, and place
     * and add the winning spot's guideline when `guideline` holds. The
     * guideline is placed from the bounds the part had before any snap.
     */
    method ShowMatches(axis: Axis, part: Part, guideline: bool, snap: bool, find: Rect -> seq<Candidate>)
      requires Valid()
      modifies this`shown, this`overlays, part`bounds, part`linkInvalidations
      ensures Valid()
      ensures var best := PassBest(old(part.bounds).location, axis, part.id, find, guidelineSnapDistance, searchDistance);
        && part.bounds == (if snap then Snapped(old(part.bounds), axis, best) else old(part.bounds))
        && part.linkInvalidations == old(part.linkInvalidations) + (if snap && best.found.Some? && part.isNode then 1 else 0)
        && shown == Shown(old(shown), axis, best, guideline)
        && overlays == Place(old(overlays), axis, old(part.bounds).location, best, guideline)
    {
      var objBounds := part.bounds.location;
      var area := SearchArea(objBounds, axis, guidelineSnapDistance, searchDistance);
      var best := FindBestMatch(objBounds, axis, part.id, find(area), guidelineSnapDistance);
      if best.found.Some? {
        var m := best.found.value;
        if snap {
          part.Move(SnapPosition(part.bounds, axis, m.spot, Target(m, axis)));
          InvalidateLinks(part);
        }
        if guideline {
          var g := Guideline(axis, m.spot);
          GuidelineInAll(g);
          overlays := overlays[g := PlacedOverlay(overlays[g], axis, objBounds, m)];
          shown := shown + {g};
        }
      }
    }

    // ------------------------------------------------------- drag hooks

    /**
     * While dragging: clear the guidelines, then run both passes on the
     * primary part without snapping, showing guidelines only when they are
     * enabled. The part does not move.
     */
    method DoDragOver(copiedParts: Option<seq<Part>>, draggedParts: Option<seq<Part>>, find: Rect -> seq<Candidate>)
      requires Valid()
      modifies this`shown, this`overlays, PrimarySet(copiedParts, draggedParts)
      ensures Valid()
      ensures PrimaryPart(copiedParts, draggedParts).None? ==> shown == {} && overlays == old(overlays)
      ensures PrimaryPart(copiedParts, draggedParts).Some? ==>
        var part := PrimaryPart(copiedParts, draggedParts).value;
        var b := old(part.bounds).location;
        var h := PassBest(b, Horizontal, part.id, find, guidelineSnapDistance, searchDistance);
        var v := PassBest(b, Vertical, part.id, find, guidelineSnapDistance, searchDistance);
        && part.bounds == old(part.bounds)
        && part.linkInvalidations == old(part.linkInvalidations)
        && shown == Shown(Shown({}, Horizontal, h, isGuidelineEnabled), Vertical, v, isGuidelineEnabled)
        && overlays == Place(Place(old(overlays), Horizontal, b, h, isGuidelineEnabled), Vertical, b, v, isGuidelineEnabled)
    {
      ClearGuidelines();
      var primary := PrimaryPart(copiedParts, draggedParts);
      if primary.None? {
        return;
      }
      var part := primary.value;
      ShowMatches(Horizontal, part, isGuidelineEnabled, false, find);
      ShowMatches(Vertical, part, isGuidelineEnabled, false, find);
    }

    /**
     * On a drop: clear the guidelines and, unless snapping is disabled or
     * shift is held, snap the primary part horizontally and then
     * vertically. No guideline is shown.
     */
    method DoDropOnto(copiedParts: Option<seq<Part>>, draggedParts: Option<seq<Part>>, shift: bool, find: Rect -> seq<Candidate>)
      requires Valid()
      modifies this`shown, this`overlays, PrimarySet(copiedParts, draggedParts)
      ensures Valid()
      ensures shown == {} && overlays == old(overlays)
      ensures PrimaryPart(copiedParts, draggedParts).Some? ==>
        var part := PrimaryPart(copiedParts, draggedParts).value;
        && part.bounds == DropBounds(old(part.bounds), part.id, find, guidelineSnapDistance, searchDistance, isGuidelineSnapEnabled && !shift)
        && part.linkInvalidations == old(part.linkInvalidations)
             + (if part.isNode then DropSnapCount(old(part.bounds), part.id, find, guidelineSnapDistance, searchDistance, isGuidelineSnapEnabled && !shift) else 0)
    {
      ClearGuidelines();
      var primary := PrimaryPart(copiedParts, draggedParts);
      if primary.None? {
        return;
      }
      var part := primary.value;
      var snap := isGuidelineSnapEnabled && !shift;
      ShowMatches(Horizontal, part, false, snap, find);
      ShowMatches(Vertical, part, false, snap, find);
    }
  }

  // ---------------------------------------------------------------- lemmas

  /**
   * A drop that snaps leaves the part aligned on both axes: the vertical
   * snap moves the part only across the horizontal pass's axis, so the
   * spot the horizontal pass matched still lies on its target.
   */
  lemma DropAlignsBothAxes(b: PartBounds, selfId: nat, find: Rect -> seq<Candidate>, snapDistance: real, searchDistance: real)
    ensures var h := PassBest(b.location, Horizontal, selfId, find, snapDistance, searchDistance);
      var b1 := Snapped(b, Horizontal, h);
      var v := PassBest(b1.location, Vertical, selfId, find, snapDistance, searchDistance);
      var r := DropBounds(b, selfId, find, snapDistance, searchDistance, true);
      && (h.found.Some? ==> Line(r.location, Horizontal, h.found.value.spot) == Target(h.found.value, Horizontal))
      && (v.found.Some? ==> Line(r.location, Vertical, v.found.value.spot) == Target(v.found.value, Vertical))
      && (h.found.None? && v.found.None? ==> r == b)
  {
    var h := PassBest(b.location, Horizontal, selfId, find, snapDistance, searchDistance);
    var b1 := Snapped(b, Horizontal, h);
    var v := PassBest(b1.location, Vertical, selfId, find, snapDistance, searchDistance);
    if v.found.Some? {
      var p := SnapPosition(b1, Vertical, v.found.value.spot, Target(v.found.value, Vertical));
      assert MoveTo(b1, p).location.y == b1.location.y;
      assert MoveTo(b1, p).location.height == b1.location.height;
    }
  }

  /**
   * The drop of the example in Alignment, with the query returning part A
   * for both passes: the horizontal pass snaps B's top onto A's bottom,
   * (2, 48) to (2, 50); the vertical pass then runs on the moved bounds,
   * where B's center is 2 from A's center, and snaps B to (0, 50).
   */
  lemma DropExampleSnapsBothAxes(a: Candidate, b: PartBounds, find: Rect -> seq<Candidate>)
    requires a == Candidate(1, Rect(0.0, 0.0, 100.0, 50.0))
    requires b == PartBounds(Rect(2.0, 48.0, 100.0, 50.0), Rect(2.0, 48.0, 100.0, 50.0))
    requires forall area :: find(area) == [a]
    ensures DropBounds(b, 2, find, 6.0, 1000.0, true).location == Rect(0.0, 50.0, 100.0, 50.0)
  {
    var h := PassBest(b.location, Horizontal, 2, find, 6.0, 1000.0);
    DropMatchesTopToBottom(a, b.location);
    assert h == Best(2.0, Some(Match(a, Near, Far)));
    DropSnapsOntoBottom(b, Match(a, Near, Far));
    var b1 := Snapped(b, Horizontal, h);
    var v := PassBest(b1.location, Vertical, 2, find, 6.0, 1000.0);
    DropVerticalDiffs(b1.location, a.bounds);
    DropVerticalScore(a, b1.location);
    assert v == Best(2.0, Some(Match(a, Center, Center)));
    DropSnapsOntoCenter(b1, Match(a, Center, Center));
  }

  /**
   * While dragging, at most one guideline per axis is in the diagram, each
   * for the spot its pass matched, and none when guidelines are disabled.
   */
  lemma DragOverShowsOnePerAxis(h: Best, v: Best, enabled: bool)
    ensures var s := Shown(Shown({}, Horizontal, h, enabled), Vertical, v, enabled);
      && (forall g :: g in s ==>
            && enabled
            && ((g.axis == Horizontal && h.found.Some? && g.spot == h.found.value.spot)
             || (g.axis == Vertical && v.found.Some? && g.spot == v.found.value.spot)))
      && (enabled && h.found.Some? ==> Guideline(Horizontal, h.found.value.spot) in s)
      && (enabled && v.found.Some? ==> Guideline(Vertical, v.found.value.spot) in s)
  {
  }
}
